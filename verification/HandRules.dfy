/**
 * A hand of no-limit hold'em as functions on the table's state: starting a hand, acting, moving from
 * street to street, showdown and payout. The class `PokerTable.Table` is the program's own imperative
 * form and is proved to compute exactly these functions.
 */
module HandRules {
  import opened Common
  import opened Cards
  import opened Pots
  import opened Seats
  import opened Betting

  /** A table's settings and the hand evaluator (hole cards, board), any function into the naturals. */
  datatype Game = Game(cfg: Config, value: (seq<Card>, seq<Card>) -> nat)

  datatype State = State(
    street: Street, handId: nat, button: Option<nat>, toAct: Option<nat>, currentBet: nat, lastRaise: nat, seats: seq<Slot>,
    board: seq<Card>, burns: seq<Card>, deck: seq<Card>, cursor: nat,
    flopSeen: bool, awaiting: bool, winners: seq<PotShare>, rake: nat)

  datatype Result<+T> = Ok(value: T) | Err(error: TableError)

  /** The error of a result, if it is one. */
  function ErrorOf<T>(r: Result<T>): Option<TableError> {
    match r
    case Ok(_) => None
    case Err(e) => Some(e)
  }

  // ---------------------------------------------------------------- seats

  function FindSeat(seats: seq<Slot>, id: PlayerId): (r: Option<nat>)
    ensures r.Some? ==> r.value < |seats| && seats[r.value].Some? && seats[r.value].value.playerId == id
  {
    if seats == [] then None
    else if seats[0].Some? && seats[0].value.playerId == id then Some(0)
    else match FindSeat(seats[1..], id)
      case None => None
      case Some(k) => Some(k + 1)
  }

  function MapSlot(s: Slot, f: Seat -> Seat): Slot {
    if s.Some? then Some(f(s.value)) else None
  }

  function MapSeats(seats: seq<Slot>, f: Seat -> Seat): (r: seq<Slot>)
    ensures |r| == |seats|
  {
    seq(|seats|, i requires 0 <= i < |seats| => MapSlot(seats[i], f))
  }

  function Contribs(seats: seq<Slot>): seq<Contribution> {
    if seats == [] then []
    else
      (match seats[0] case None => [] case Some(p) => [Contribution(p.playerId, p.handCommit, p.folded)]) + Contribs(seats[1..])
  }

  /** Add chips to a player's stack. */
  function Credit(seats: seq<Slot>, share: PotShare): (r: seq<Slot>)
    ensures |r| == |seats|
  {
    match FindSeat(seats, share.playerId)
    case None => seats
    case Some(k) => seats[k := Some(seats[k].value.(stack := seats[k].value.stack + share.amount))]
  }

  function CreditAll(seats: seq<Slot>, shares: seq<PotShare>): (r: seq<Slot>)
    ensures |r| == |seats|
    decreases |shares|
  {
    if shares == [] then seats else CreditAll(Credit(seats, shares[0]), shares[1..])
  }

  /** Take an uncalled bet back out of the pot. */
  function Uncommit(seats: seq<Slot>, share: PotShare): (r: seq<Slot>)
    ensures |r| == |seats|
  {
    match FindSeat(seats, share.playerId)
    case None => seats
    case Some(k) =>
      var p := seats[k].value;
      seats[k := Some(p.(stack := p.stack + share.amount, handCommit := Excess(p.handCommit, share.amount)))]
  }

  function UncommitAll(seats: seq<Slot>, shares: seq<PotShare>): (r: seq<Slot>)
    ensures |r| == |seats|
    decreases |shares|
  {
    if shares == [] then seats else UncommitAll(Uncommit(seats, shares[0]), shares[1..])
  }

  // ---------------------------------------------------------------- showdown

  function HandValue(g: Game, seats: seq<Slot>, board: seq<Card>, id: PlayerId): nat {
    match FindSeat(seats, id)
    case None => 0
    case Some(k) => g.value(seats[k].value.hole, board)
  }

  function BestValue(g: Game, seats: seq<Slot>, board: seq<Card>, ids: seq<PlayerId>): nat {
    if ids == [] then 0
    else Max(HandValue(g, seats, board, ids[0]), BestValue(g, seats, board, ids[1..]))
  }

  function WithValue(g: Game, seats: seq<Slot>, board: seq<Card>, ids: seq<PlayerId>, best: nat): seq<PlayerId> {
    if ids == [] then []
    else (if HandValue(g, seats, board, ids[0]) == best then [ids[0]] else []) + WithValue(g, seats, board, ids[1..], best)
  }

  function PotWinners(g: Game, seats: seq<Slot>, board: seq<Card>, pot: Pot): seq<PlayerId> {
    WithValue(g, seats, board, pot.eligible, BestValue(g, seats, board, pot.eligible))
  }

  predicate RakeApplies(g: Game, flopSeen: bool) {
    !(g.cfg.noFlopNoRake && !flopSeen)
  }

  /** The rake on an amount; the cap applies pot by pot. */
  function RakeOn(g: Game, flopSeen: bool, amount: nat): (rake: nat)
    requires GoodConfig(g.cfg)
    ensures rake <= amount
  {
    if RakeApplies(g, flopSeen) then Rake(amount, g.cfg.rakePercent, g.cfg.rakeCap) else 0
  }

  function PotRake(g: Game, flopSeen: bool, pot: Pot): nat
    requires GoodConfig(g.cfg)
  {
    if pot.eligible == [] then 0 else RakeOn(g, flopSeen, pot.amount)
  }

  /** What a pot pays: nothing when nobody may win it, else its net split among the best hands. */
  function PotShares(g: Game, st: State, pot: Pot): seq<PotShare>
    requires GoodConfig(g.cfg)
  {
    if pot.eligible == [] then []
    else SplitPot(pot.amount - RakeOn(g, st.flopSeen, pot.amount), PotWinners(g, st.seats, st.board, pot))
  }

  function AllShares(g: Game, st: State, pots: seq<Pot>): seq<PotShare>
    requires GoodConfig(g.cfg)
  {
    if pots == [] then [] else PotShares(g, st, pots[0]) + AllShares(g, st, pots[1..])
  }

  function TotalRake(g: Game, flopSeen: bool, pots: seq<Pot>): nat
    requires GoodConfig(g.cfg)
  {
    if pots == [] then 0 else PotRake(g, flopSeen, pots[0]) + TotalRake(g, flopSeen, pots[1..])
  }

  function ShowdownPots(st: State): seq<Pot> {
    PotsAbove(AfterReturn(Contribs(st.seats)), 0)
  }

  function ShowdownShares(g: Game, st: State): seq<PotShare>
    requires GoodConfig(g.cfg)
  {
    AllShares(g, st, ShowdownPots(st))
  }

  function DoShowdown(g: Game, st: State): State
    requires GoodConfig(g.cfg)
  {
    var shares := ShowdownShares(g, st);
    st.(street := Payout, toAct := None, awaiting := true, winners := shares,
        seats := CreditAll(UncommitAll(st.seats, Refund(Contribs(st.seats))), shares),
        rake := TotalRake(g, st.flopSeen, ShowdownPots(st)))
  }

  /** Everyone else folded: the last player takes the pot, less rake, without showing. */
  function AwardUncontested(g: Game, st: State, winner: PlayerId): State
    requires GoodConfig(g.cfg)
  {
    var pot := TotalCommitted(AfterReturn(Contribs(st.seats)));
    var rake := RakeOn(g, st.flopSeen, pot);
    var share := PotShare(winner, pot - rake);
    st.(street := Payout, toAct := None, awaiting := true, winners := [share], rake := rake,
        seats := Credit(UncommitAll(st.seats, Refund(Contribs(st.seats))), share))
  }

  // ---------------------------------------------------------------- streets

  function CardsToCome(s: Street): nat {
    match s
    case Preflop => 8
    case Flop => 4
    case Turn => 2
    case _ => 0
  }

  predicate DeckReady(st: State) {
    st.cursor + CardsToCome(st.street) <= |st.deck|
  }

  function DealFlop(st: State): State
    requires st.cursor + 4 <= |st.deck|
  {
    st.(burns := st.burns + [st.deck[st.cursor]], board := st.board + st.deck[st.cursor + 1..st.cursor + 4],
        cursor := st.cursor + 4, flopSeen := true)
  }

  /** The turn or the river: one burn, one board card. */
  function DealOne(st: State): State
    requires st.cursor + 2 <= |st.deck|
  {
    st.(burns := st.burns + [st.deck[st.cursor]], board := st.board + [st.deck[st.cursor + 1]], cursor := st.cursor + 2)
  }

  function RunOut(st: State): State
    requires DeckReady(st)
  {
    match st.street
    case Preflop => DealOne(DealOne(DealFlop(st)))
    case Flop => DealOne(DealOne(st))
    case Turn => DealOne(st)
    case _ => st
  }

  function NextStreetName(s: Street): Street {
    match s
    case Preflop => Flop
    case Flop => Turn
    case Turn => River
    case _ => Showdown
  }

  function FreshStreet(p: Seat): Seat {
    p.(streetCommit := 0, acted := false)
  }

  function BeginStreet(g: Game, st: State, street: Street): State
    requires st.button.Some? && st.button.value < |st.seats|
  {
    var seats := MapSeats(st.seats, FreshStreet);
    st.(street := street, seats := seats, currentBet := 0, lastRaise := g.cfg.bigBlind,
        toAct := Next(seats, st.button.value, CanAct))
  }

  /** At most one player can still act: the board is run out. */
  predicate IsRunOut(seats: seq<Slot>) {
    |ActorSet(seats)| <= 1 && |LiveSet(seats)| > 1
  }

  function NextStreet(g: Game, st: State): State
    requires GoodConfig(g.cfg) && IsBetting(st.street) && DeckReady(st)
    requires st.button.Some? && st.button.value < |st.seats|
  {
    if st.street.River? || IsRunOut(st.seats) then DoShowdown(g, RunOut(st))
    else BeginStreet(g, if st.street.Preflop? then DealFlop(st) else DealOne(st), NextStreetName(st.street))
  }

  function FirstLiveId(seats: seq<Slot>): PlayerId {
    if seats == [] then 0 else if Live(seats[0]) then seats[0].value.playerId else FirstLiveId(seats[1..])
  }

  /** What follows once an action is in the seats: an uncontested win, the next street, or the next actor. */
  function Advance(g: Game, st: State, from: nat): State
    requires GoodConfig(g.cfg) && IsBetting(st.street) && DeckReady(st)
    requires st.button.Some? && st.button.value < |st.seats| && from < |st.seats|
  {
    if |LiveSet(st.seats)| == 1 then AwardUncontested(g, st, FirstLiveId(st.seats))
    else if Closed(st.seats, st.currentBet) then NextStreet(g, st)
    else st.(toAct := Next(st.seats, from, CanAct))
  }

  // ---------------------------------------------------------------- acting

  /** Structural facts about a running hand that the rules rely on. */
  predicate Running(g: Game, st: State) {
    && GoodConfig(g.cfg) && IsBetting(st.street) && DeckReady(st) && |st.seats| == g.cfg.seats
    && st.button.Some? && st.button.value < |st.seats|
    && (st.toAct.Some? ==> st.toAct.value < |st.seats|)
  }

  function Play(g: Game, st: State, played: Outcome): State
    requires Running(g, st) && st.toAct.Some? && played.Played?
  {
    Advance(g,
      st.(seats := After(st.seats, st.toAct.value, played), currentBet := played.bet, lastRaise := played.lastRaise),
      st.toAct.value)
  }

  function Act(g: Game, st: State, id: PlayerId, action: PlayerAction): Result<State>
    requires IsBetting(st.street) ==> Running(g, st)
  {
    if !IsBetting(st.street) then Err(NotBettingStreet)
    else if st.toAct.None? then Err(NoActionToTake)
    else match FindSeat(st.seats, id)
      case None => Err(NotSeated)
      case Some(seat) =>
        if seat != st.toAct.value then Err(NotYourTurn)
        else if st.seats[seat].value.folded || st.seats[seat].value.allIn then Err(OutOfAction)
        else
          match Apply(g.cfg, st.seats[seat].value, st.currentBet, st.lastRaise, action)
          case Refused(e) => Err(e)
          case Played(p, b, r, o) => Ok(Play(g, st, Played(p, b, r, o)))
  }

  // ---------------------------------------------------------------- between hands

  function Cleared(p: Seat): Seat {
    p.(streetCommit := 0, handCommit := 0, folded := false, allIn := false, hole := [], acted := false)
  }

  /** `finishHand`: the hand's marks are wiped off the seats. What is revealed then is the subject of `SealedHands`. */
  function Finish(g: Game, st: State): State {
    st.(street := Waiting, toAct := None, currentBet := 0, lastRaise := g.cfg.bigBlind, awaiting := false,
        seats := MapSeats(st.seats, Cleared))
  }

  /** Every call between hands first cleans up after a paid-out hand. */
  function Idle(g: Game, st: State): State {
    if st.awaiting then Finish(g, st) else st
  }

  /** A table nobody has sat at yet. */
  function NewTable(g: Game): State {
    State(Waiting, 0, None, None, 0, 0, seq(g.cfg.seats, _ => None), [], [], [], 0, false, false, [], 0)
  }

  function FirstEmpty(seats: seq<Slot>): (r: Option<nat>)
    ensures r.Some? ==> r.value < |seats| && seats[r.value].None?
  {
    if seats == [] then None
    else if seats[0].None? then Some(0)
    else match FirstEmpty(seats[1..])
      case None => None
      case Some(k) => Some(k + 1)
  }

  function NewSeat(id: PlayerId, buyIn: nat): Seat {
    Seat(id, buyIn, 0, 0, false, false, false, [], false)
  }

  function Sit(g: Game, st: State, id: PlayerId, buyIn: nat, seatIndex: Option<int>): Result<State> {
    var idle := Idle(g, st);
    if !idle.street.Waiting? then Err(HandInProgress)
    else if FindSeat(idle.seats, id).Some? then Err(AlreadySeated)
    else if buyIn < g.cfg.minBuyIn || buyIn > g.cfg.maxBuyIn then Err(BadBuyIn)
    else
      var seat: int := match seatIndex
        case Some(k) => k
        case None => (match FirstEmpty(idle.seats) case None => -1 case Some(k) => k);
      if seat < 0 || seat >= |idle.seats| || idle.seats[seat].Some? then Err(NoEmptySeat)
      else Ok(idle.(seats := idle.seats[seat := Some(NewSeat(id, buyIn))]))
  }

  function AddOn(g: Game, st: State, id: PlayerId, amount: int): Result<State> {
    var idle := Idle(g, st);
    if !idle.street.Waiting? then Err(HandInProgress)
    else match FindSeat(idle.seats, id)
      case None => Err(NotSeated)
      case Some(k) =>
        var p := idle.seats[k].value;
        if p.stack + amount > g.cfg.maxBuyIn then Err(AddOnTooLarge)
        else if amount <= 0 then Err(AddOnNotPositive)
        else Ok(idle.(seats := idle.seats[k := Some(p.(stack := p.stack + amount))]))
  }

  /** Leaving takes the whole stack off the table. */
  function CashOut(g: Game, st: State, id: PlayerId): Result<(State, nat)> {
    var idle := Idle(g, st);
    if !idle.street.Waiting? then Err(HandInProgress)
    else match FindSeat(idle.seats, id)
      case None => Err(NotSeated)
      case Some(k) => Ok((idle.(seats := idle.seats[k := None]), idle.seats[k].value.stack))
  }

  // ---------------------------------------------------------------- starting a hand

  /** In a position to be dealt in. */
  predicate Ready(s: Slot) {
    s.Some? && !s.value.sittingOut && s.value.stack > 0
  }

  function ReadySet(seats: seq<Slot>): set<nat> {
    set i: nat | i < |seats| && Ready(seats[i])
  }

  function FreshHand(p: Seat): Seat {
    p.(streetCommit := 0, handCommit := 0, folded := p.sittingOut || p.stack == 0, allIn := false, hole := [], acted := false)
  }

  function FirstTaken(seats: seq<Slot>): nat {
    if seats == [] then 0 else if seats[0].Some? then 0 else 1 + FirstTaken(seats[1..])
  }

  /** The button goes to the first occupied seat, then clockwise from ready player to ready player. */
  function NextButton(seats: seq<Slot>, button: Option<nat>): nat
    requires button.Some? ==> button.value < |seats|
  {
    match button
    case None => FirstTaken(seats)
    case Some(b) => (match Next(seats, b, Ready) case None => b case Some(j) => j)
  }

  function Posted(p: Seat, blind: nat): Seat {
    Put(p, Min(blind, p.stack)).(acted := false)
  }

  function Post(seats: seq<Slot>, i: nat, blind: nat): (r: seq<Slot>)
    requires i < |seats|
    ensures |r| == |seats|
  {
    if seats[i].Some? then seats[i := Some(Posted(seats[i].value, blind))] else seats
  }

  /** Heads-up the button is the small blind; otherwise the seat after it. */
  function SmallBlindSeat(seats: seq<Slot>, button: nat): (r: nat)
    requires button < |seats|
    ensures r < |seats|
  {
    if |LiveSet(seats)| == 2 then button else Next(seats, button, Live).GetOr(button)
  }

  function BigBlindSeat(seats: seq<Slot>, button: nat): (r: nat)
    requires button < |seats|
    ensures r < |seats|
  {
    var sb := SmallBlindSeat(seats, button);
    Next(seats, sb, Live).GetOr(sb)
  }

  /** The live seats in deal order: clockwise, starting after the button. */
  function DealOrder(seats: seq<Slot>, button: nat, k: nat): (order: seq<nat>)
    requires button < |seats| && 1 <= k <= |seats| + 1
    ensures |order| <= |seats| + 1 - k
    ensures forall i :: 0 <= i < |order| ==> order[i] < |seats| && Live(seats[order[i]])
    decreases |seats| + 1 - k
  {
    if k > |seats| then []
    else
      var idx := StepFrom(|seats|, button, k);
      (if Live(seats[idx]) then [idx] else []) + DealOrder(seats, button, k + 1)
  }

  function Dealt(s: Slot, c: Card): Slot {
    if s.Some? then Some(s.value.(hole := s.value.hole + [c])) else None
  }

  /** One round of the deal: each seat in order takes the next card. */
  function DealRound(seats: seq<Slot>, order: seq<nat>, cards: seq<Card>): (r: seq<Slot>)
    ensures |r| == |seats|
    requires |order| <= |cards| && forall i :: 0 <= i < |order| ==> order[i] < |seats|
    decreases |order|
  {
    if order == [] then seats
    else DealRound(seats[order[0] := Dealt(seats[order[0]], cards[0])], order[1..], cards[1..])
  }

  /** Seats before the deal: marks wiped, busted players folded, blinds posted. */
  function Blinded(g: Game, seats: seq<Slot>, button: nat): (r: seq<Slot>)
    requires button < |seats|
    ensures |r| == |seats|
  {
    Post(Post(seats, SmallBlindSeat(seats, button), g.cfg.smallBlind), BigBlindSeat(seats, button), g.cfg.bigBlind)
  }

  /** Two cards to every live seat, one at a time. */
  function DealHoles(seats: seq<Slot>, order: seq<nat>, deck: seq<Card>): (r: seq<Slot>)
    requires 2 * |order| <= |deck| && forall i :: 0 <= i < |order| ==> order[i] < |seats|
    ensures |r| == |seats|
  {
    DealRound(DealRound(seats, order, deck), order, deck[|order|..])
  }

  /** The hand as dealt, before anyone is skipped: blinds in, two cards each, first actor after the big blind. */
  function Opened(g: Game, st: State, deck: seq<Card>): (r: State)
    requires GoodConfig(g.cfg) && |st.seats| == g.cfg.seats && |deck| == DECK_SIZE
    requires st.button.Some? ==> st.button.value < |st.seats|
    requires NextButton(MapSeats(st.seats, FreshHand), st.button) < |st.seats|
    ensures Running(g, r)
  {
    var reset := MapSeats(st.seats, FreshHand);
    var button := NextButton(reset, st.button);
    var blinded := Blinded(g, reset, button);
    var order := DealOrder(blinded, button, 1);
    var seats := DealHoles(blinded, order, deck);
    State(Preflop, st.handId + 1, Some(button), Next(seats, BigBlindSeat(reset, button), CanAct), g.cfg.bigBlind, g.cfg.bigBlind, seats,
          [], [], deck, 2 * |order|, false, false, [], 0)
  }

  lemma ButtonInRange(seats: seq<Slot>, button: Option<nat>)
    requires button.Some? ==> button.value < |seats|
    requires ReadySet(seats) != {}
    ensures NextButton(seats, button) < |seats|
  {
    var i :| i in ReadySet(seats);
    FirstTakenIs(seats, i);
  }

  lemma {:induction false} FirstTakenIs(seats: seq<Slot>, i: nat)
    requires i < |seats| && seats[i].Some?
    ensures FirstTaken(seats) < |seats| && seats[FirstTaken(seats)].Some?
  {
    if seats[0].None? {
      FirstTakenIs(seats[1..], i - 1);
    }
  }

  /** The players dealt in are those ready before the marks were wiped. */
  lemma FreshReady(seats: seq<Slot>)
    ensures ReadySet(MapSeats(seats, FreshHand)) == ReadySet(seats)
    ensures LiveSet(MapSeats(seats, FreshHand)) == ReadySet(seats)
  {
    var reset := MapSeats(seats, FreshHand);
    forall i: nat | i < |seats|
      ensures Ready(reset[i]) <==> Ready(seats[i])
      ensures Live(reset[i]) <==> Ready(seats[i])
    {
      assert seats[i].Some? ==> reset[i] == Some(FreshHand(seats[i].value));
    }
  }

  /** Start a hand with a new deck; if the blinds already put everyone all-in it runs straight to showdown. */
  function StartHand(g: Game, st: State, deck: seq<Card>): Result<State>
    requires GoodConfig(g.cfg) && |st.seats| == g.cfg.seats && |deck| == DECK_SIZE
    requires st.button.Some? ==> st.button.value < |st.seats|
  {
    var idle := Idle(g, st);
    if !idle.street.Waiting? then Err(HandInProgress)
    else if |ReadySet(idle.seats)| < 2 then Err(TooFewPlayers)
    else
      FreshReady(idle.seats);
      ButtonInRange(MapSeats(idle.seats, FreshHand), idle.button);
      var dealt := Opened(g, idle, deck);
      if Closed(dealt.seats, dealt.currentBet) then Ok(NextStreet(g, dealt)) else Ok(dealt)
  }
}
