/** The invariant of a running hand, and its preservation by every accepted action. */
module HandInvariant {
  import opened Common
  import opened Cards
  import opened Pots
  import opened Seats
  import opened Betting
  import opened HandRules
  import opened ShowdownProofs

  // ---------------------------------------------------------------- where the cards are

  function DealtIn(seats: seq<Slot>): set<nat> {
    set i: nat | i < |seats| && seats[i].Some? && seats[i].value.hole != []
  }

  /** With m players dealt in, the deck positions drawn by the start of a street. */
  function CursorAt(m: nat, s: Street): nat {
    match s
    case Preflop => 2 * m
    case Flop => 2 * m + 4
    case Turn => 2 * m + 6
    case _ => 2 * m + 8
  }

  function BoardAt(deck: seq<Card>, m: nat, s: Street): seq<Card>
    requires 2 * m + 8 <= |deck|
  {
    match s
    case Preflop => []
    case Flop => deck[2 * m + 1..2 * m + 4]
    case Turn => deck[2 * m + 1..2 * m + 4] + [deck[2 * m + 5]]
    case _ => deck[2 * m + 1..2 * m + 4] + [deck[2 * m + 5]] + [deck[2 * m + 7]]
  }

  function BurnsAt(deck: seq<Card>, m: nat, s: Street): seq<Card>
    requires 2 * m + 8 <= |deck|
  {
    match s
    case Preflop => []
    case Flop => [deck[2 * m]]
    case Turn => [deck[2 * m]] + [deck[2 * m + 4]]
    case _ => [deck[2 * m]] + [deck[2 * m + 4]] + [deck[2 * m + 6]]
  }

  /** The board and the burns are those of street s, drawn from fixed deck positions. */
  ghost predicate CardsAt(st: State, m: nat, s: Street) {
    && 2 * m + 8 <= |st.deck|
    && st.cursor == CursorAt(m, s) && st.board == BoardAt(st.deck, m, s) && st.burns == BurnsAt(st.deck, m, s)
    && (st.flopSeen <==> !s.Preflop?)
  }

  ghost predicate HolesDealt(seats: seq<Slot>) {
    forall i: nat :: i < |seats| && Live(seats[i]) ==> |seats[i].value.hole| == 2
  }

  ghost predicate NobodySitsOut(seats: seq<Slot>) {
    forall i: nat :: i < |seats| && seats[i].Some? ==> !seats[i].value.sittingOut
  }

  /** The same deck in the same hands. */
  ghost predicate SameCards(a: seq<Slot>, b: seq<Slot>) {
    |a| == |b| && forall i: nat :: i < |a| ==> SameHole(a[i], b[i])
  }

  ghost predicate SameHole(a: Slot, b: Slot) {
    match a
    case None => b.None?
    case Some(p) => b.Some? && b.value.playerId == p.playerId && b.value.hole == p.hole && b.value.sittingOut == p.sittingOut
  }

  /** What stays fixed from the deal to the end of the hand. */
  ghost predicate SameDeal(a: State, b: State) {
    a.deck == b.deck && a.handId == b.handId && a.button == b.button && SameCards(a.seats, b.seats)
  }

  lemma SameDealKeeps(a: State, b: State)
    requires SameDeal(a, b)
    ensures DealtIn(a.seats) == DealtIn(b.seats)
    ensures DistinctPlayers(a.seats) ==> DistinctPlayers(b.seats)
    ensures NobodySitsOut(a.seats) ==> NobodySitsOut(b.seats)
  {
  }

  lemma SameDealSelf(st: State)
    ensures SameDeal(st, st)
  {
    assert forall i: nat :: i < |st.seats| ==> SameHole(st.seats[i], st.seats[i]);
  }

  lemma SameDealCompose(a: State, b: State, c: State)
    requires SameDeal(a, b) && SameDeal(b, c)
    ensures SameDeal(a, c)
  {
  }

  // ---------------------------------------------------------------- the invariant

  /** A hand on a betting street with the last action in, but the turn not yet passed. */
  ghost predicate Settled(g: Game, st: State, base: nat) {
    && Running(g, st) && !st.awaiting && st.rake == 0
    && DistinctPlayers(st.seats) && NobodySitsOut(st.seats) && HolesDealt(st.seats)
    && CardsAt(st, |DealtIn(st.seats)|, st.street)
    && Sane(st.seats, st.currentBet) && Level(st.seats, st.currentBet, base) && Covered(st.seats, st.currentBet, base)
    && RaiseSize(g.cfg, st.seats, st.currentBet, st.lastRaise)
  }

  /** What every player able to act had in the pot when the street began. */
  function Base(st: State): nat {
    if st.toAct.Some? && st.toAct.value < |st.seats| && st.seats[st.toAct.value].Some? then
      var p := st.seats[st.toAct.value].value;
      Excess(p.handCommit, p.streetCommit)
    else 0
  }

  /** A hand waiting for a player's action. */
  ghost predicate HandInv(g: Game, st: State) {
    && Settled(g, st, Base(st))
    && st.toAct.Some? && InTurn(st.seats, st.currentBet, st.toAct.value)
    && !Closed(st.seats, st.currentBet)
  }

  /** A paid-out hand, not yet cleaned up. */
  ghost predicate PaidInv(g: Game, st: State) {
    && GoodConfig(g.cfg) && st.street.Payout? && st.awaiting && st.toAct.None?
    && |st.seats| == g.cfg.seats && st.button.Some? && st.button.value < |st.seats|
    && DistinctPlayers(st.seats) && NobodySitsOut(st.seats)
    && exists s: Street :: IsBetting(s) && CardsAt(st, |DealtIn(st.seats)|, s)
  }

  lemma BaseIs(g: Game, st: State, base: nat)
    requires Settled(g, st, base) && st.toAct.Some? && CanAct(st.seats[st.toAct.value])
    ensures Base(st) == base
  {
  }

  // ---------------------------------------------------------------- from the close of betting onwards

  lemma RunOutCards(st: State, m: nat)
    requires IsBetting(st.street) && CardsAt(st, m, st.street)
    ensures DeckReady(st)
    ensures RunOut(st) == st.(board := RunOut(st).board, burns := RunOut(st).burns, cursor := RunOut(st).cursor, flopSeen := true)
    ensures CardsAt(RunOut(st), m, River)
  {
    match st.street
    case Preflop =>
      var flop := DealFlop(st);
      assert CardsAt(flop, m, Flop);
      assert CardsAt(DealOne(flop), m, Turn);
    case Flop => assert CardsAt(DealOne(st), m, Turn);
    case Turn =>
    case River =>
  }

  lemma FacesDeal(a: State, b: State)
    requires SameFaces(a.seats, b.seats) && a.deck == b.deck && a.handId == b.handId && a.button == b.button
    ensures SameDeal(a, b)
  {
  }

  /** An eligible player is seated and live, whatever has been credited since. */
  lemma EligibleSeated(st: State, seats: seq<Slot>, k: nat, id: PlayerId)
    requires DistinctPlayers(st.seats) && SameFaces(st.seats, seats)
    requires k < |ShowdownPots(st)| && id in ShowdownPots(st)[k].eligible
    ensures var i := FindSeat(seats, id); i.Some? && Live(seats[i.value])
  {
    var c := Contribs(st.seats);
    EligibleAreLive(AfterReturn(c), k, id);
    var i :| 0 <= i < |c| && AfterReturn(c)[i].playerId == id && !AfterReturn(c)[i].folded;
    var h := ContribsFromSeats(st.seats, i);
    FindUnique(st.seats, h);
    FindSame(st.seats, seats, id);
    assert SameFace(st.seats[h], seats[h]);
  }

  /** The player is seated and has been dealt two cards. */
  ghost predicate HasHole(seats: seq<Slot>, id: PlayerId) {
    FindSeat(seats, id).Some? && |seats[FindSeat(seats, id).value].value.hole| == 2
  }

  lemma EligibleReady(st: State, seats: seq<Slot>, j: nat)
    requires DistinctPlayers(st.seats) && HolesDealt(st.seats) && SameFaces(st.seats, seats) && j < |ShowdownPots(st)|
    ensures forall id :: id in ShowdownPots(st)[j].eligible ==> HasHole(seats, id)
  {
    forall id | id in ShowdownPots(st)[j].eligible
      ensures HasHole(seats, id)
    {
      EligibleSeated(st, seats, j, id);
      var i := FindSeat(seats, id).value;
      assert SameFace(st.seats[i], seats[i]);
    }
  }

  /** At showdown every contender has two hole cards and the board five: the evaluator's demands are met. */
  lemma ShowdownReady(g: Game, st: State, base: nat)
    requires Settled(g, st, base)
    ensures |RunOut(st).board| == 5
    ensures forall s :: s in ShowdownShares(g, RunOut(st)) ==>
      var k := FindSeat(st.seats, s.playerId); k.Some? && |st.seats[k.value].value.hole| == 2
  {
    RunOutCards(st, |DealtIn(st.seats)|);
    var end := RunOut(st);
    forall s | s in ShowdownShares(g, end)
      ensures var k := FindSeat(st.seats, s.playerId); k.Some? && |st.seats[k.value].value.hole| == 2
    {
      SharesGoToLive(g, end, s);
    }
  }

  /** Showdown pays out, conserving chips, with every pot owned. */
  lemma ShowdownPaid(g: Game, st: State, base: nat)
    requires Settled(g, st, base) && Closed(st.seats, st.currentBet) && |LiveSet(st.seats)| >= 2
    requires st.currentBet == 0 ==> ActorSet(st.seats) != {}
    ensures var end := DoShowdown(g, RunOut(st));
      && PaidInv(g, end) && SameDeal(st, end) && AllOwned(ShowdownPots(RunOut(st)))
      && Sum(end.seats, StackOf) + end.rake == Sum(st.seats, StackOf) + Sum(st.seats, CommitOf)
  {
    var run := RunOut(st);
    RunOutCards(st, |DealtIn(st.seats)|);
    CloseCovers(st.seats, st.currentBet, base);
    ShowdownConserves(g, run);
    var end := DoShowdown(g, run);
    FacesDeal(run, end);
    SameDealKeeps(run, end);
    assert CardsAt(end, |DealtIn(end.seats)|, River);
  }

  lemma {:induction false} FirstLiveIs(seats: seq<Slot>)
    requires LiveSet(seats) != {}
    ensures exists i: nat :: i < |seats| && Live(seats[i]) && FirstLiveId(seats) == seats[i].value.playerId
  {
    if Live(seats[0]) {
    } else {
      var i :| i in LiveSet(seats);
      assert seats[1..][i - 1] == seats[i];
      assert i - 1 in LiveSet(seats[1..]);
      FirstLiveIs(seats[1..]);
      var k: nat :| k < |seats[1..]| && Live(seats[1..][k]) && FirstLiveId(seats[1..]) == seats[1..][k].value.playerId;
      assert seats[k + 1] == seats[1..][k];
    }
  }

  /** The last live player takes the pot. */
  lemma UncontestedPaid(g: Game, st: State, base: nat)
    requires Settled(g, st, base) && |LiveSet(st.seats)| == 1
    ensures var end := AwardUncontested(g, st, FirstLiveId(st.seats));
      && PaidInv(g, end) && SameDeal(st, end)
      && Sum(end.seats, StackOf) + end.rake == Sum(st.seats, StackOf) + Sum(st.seats, CommitOf)
  {
    FirstLiveIs(st.seats);
    var i: nat :| i < |st.seats| && Live(st.seats[i]) && FirstLiveId(st.seats) == st.seats[i].value.playerId;
    FindUnique(st.seats, i);
    UncontestedConserves(g, st, FirstLiveId(st.seats));
    var end := AwardUncontested(g, st, FirstLiveId(st.seats));
    FacesDeal(st, end);
    SameDealKeeps(st, end);
    assert CardsAt(end, |DealtIn(end.seats)|, st.street);
  }

  // ---------------------------------------------------------------- a new street

  lemma DealNextCards(st: State, m: nat)
    requires IsBetting(st.street) && !st.street.River? && CardsAt(st, m, st.street)
    ensures DeckReady(st)
    ensures var next := if st.street.Preflop? then DealFlop(st) else DealOne(st);
      && CardsAt(next, m, NextStreetName(st.street))
      && next == st.(board := next.board, burns := next.burns, cursor := next.cursor, flopSeen := next.flopSeen)
  {
  }

  lemma FreshStreetSeats(seats: seq<Slot>, i: nat)
    requires i < |seats|
    ensures var s := MapSeats(seats, FreshStreet)[i];
      && s == (if seats[i].Some? then Some(FreshStreet(seats[i].value)) else None)
      && Live(s) == Live(seats[i]) && CanAct(s) == CanAct(seats[i]) && Owes(s, 0) == CanAct(s) && SameHole(seats[i], s)
  {
  }

  lemma FreshSets(seats: seq<Slot>)
    ensures LiveSet(MapSeats(seats, FreshStreet)) == LiveSet(seats)
    ensures ActorSet(MapSeats(seats, FreshStreet)) == ActorSet(seats)
    ensures DealtIn(MapSeats(seats, FreshStreet)) == DealtIn(seats)
    ensures SameCards(seats, MapSeats(seats, FreshStreet))
    ensures Sum(MapSeats(seats, FreshStreet), StackOf) == Sum(seats, StackOf)
    ensures Sum(MapSeats(seats, FreshStreet), CommitOf) == Sum(seats, CommitOf)
  {
    var next := MapSeats(seats, FreshStreet);
    forall i: nat | i < |seats|
      ensures Live(next[i]) == Live(seats[i]) && CanAct(next[i]) == CanAct(seats[i]) && SameHole(seats[i], next[i])
      ensures StackOf(next[i]) == StackOf(seats[i]) && CommitOf(next[i]) == CommitOf(seats[i])
    {
      FreshStreetSeats(seats, i);
    }
    SumSame(seats, next, StackOf);
    SumSame(seats, next, CommitOf);
  }

  /** At the start of a street everyone able to act owes, has the same chips in, and nobody has more. */
  lemma FreshRound(cfg: Config, seats: seq<Slot>, bet: nat, base: nat, button: nat)
    requires Sane(seats, bet) && Level(seats, bet, base) && Closed(seats, bet)
    requires |ActorSet(seats)| >= 2 && |LiveSet(seats)| >= 2 && button < |seats|
    ensures var next := MapSeats(seats, FreshStreet); var t := Next(next, button, CanAct);
      && Sane(next, 0) && Level(next, 0, base + bet) && RaiseSize(cfg, next, 0, cfg.bigBlind)
      && t.Some? && InTurn(next, 0, t.value) && !Closed(next, 0)
  {
    var next := MapSeats(seats, FreshStreet);
    FreshSets(seats);
    forall i: nat | i < |seats|
      ensures SaneSeat(next[i], 0) && LevelSeat(next[i], 0, base + bet) && Owes(next[i], 0) == CanAct(next[i])
    {
      FreshStreetSeats(seats, i);
      assert SaneSeat(seats[i], bet) && LevelSeat(seats[i], bet, base);
      if CanAct(seats[i]) {
      }
    }
    NextIs(next, button, CanAct);
    var i :| i in ActorSet(next);
    assert CanAct(next[i]);
  }

  lemma FreshHoles(seats: seq<Slot>)
    requires HolesDealt(seats)
    ensures HolesDealt(MapSeats(seats, FreshStreet))
  {
    var next := MapSeats(seats, FreshStreet);
    forall i: nat | i < |next| && Live(next[i])
      ensures |next[i].value.hole| == 2
    {
      FreshStreetSeats(seats, i);
    }
  }

  /** The next street's cards are out and its round is in good order. */
  lemma BeginSettled(g: Game, st: State, base: nat)
    requires Settled(g, st, base) && Closed(st.seats, st.currentBet) && |LiveSet(st.seats)| >= 2
    requires !st.street.River? && !IsRunOut(st.seats)
    ensures var next := NextStreet(g, st);
      && Settled(g, next, base + st.currentBet) && SameDeal(st, next)
      && next.currentBet == 0 && next.toAct.Some? && InTurn(next.seats, 0, next.toAct.value) && !Closed(next.seats, 0)
  {
    hide Sane, Level, RaiseSize, InTurn, Closed, DealtIn, DoShowdown, RunOut, HolesDealt, SameHole;
    var next := NextStreet(g, st);
    DealNextCards(st, |DealtIn(st.seats)|);
    FreshRound(g.cfg, st.seats, st.currentBet, base, st.button.value);
    FreshSets(st.seats);
    FreshHoles(st.seats);
    assert SameDeal(st, next);
    SameDealKeeps(st, next);
  }

  lemma BeginInv(g: Game, st: State, base: nat)
    requires Settled(g, st, base) && Closed(st.seats, st.currentBet) && |LiveSet(st.seats)| >= 2
    requires !st.street.River? && !IsRunOut(st.seats)
    ensures HandInv(g, NextStreet(g, st)) && SameDeal(st, NextStreet(g, st))
  {
    var next := NextStreet(g, st);
    hide Settled, SameDeal, Closed, NextStreet, Prefix, OptionLast, Base;
    BeginSettled(g, st, base);
    BaseIs(g, next, base + st.currentBet);
  }

  // ---------------------------------------------------------------- one accepted action

  lemma ActsCards(seats: seq<Slot>, t: nat, bet: nat, seats': seq<Slot>, bet': nat)
    requires Acts(seats, t, bet, seats', bet') && Sane(seats, bet) && CanAct(seats[t])
    ensures SameCards(seats, seats')
    ensures HolesDealt(seats) ==> HolesDealt(seats')
    ensures Sum(seats', StackOf) + Sum(seats', CommitOf) == Sum(seats, StackOf) + Sum(seats, CommitOf)
  {
    forall k: nat | k < |seats|
      ensures SameHole(seats[k], seats'[k]) && (Live(seats'[k]) ==> Live(seats[k]))
    {
      assert k != t ==> OtherStep(seats[k], seats'[k], bet, bet');
    }
    StacksAfter(seats, t, bet, seats', bet');
  }

  /** The state with the action in the seats, before the turn passes. */
  function Mid(st: State, played: Outcome): State
    requires played.Played? && st.toAct.Some? && st.toAct.value < |st.seats|
  {
    st.(seats := After(st.seats, st.toAct.value, played), currentBet := played.bet, lastRaise := played.lastRaise)
  }

  lemma MidSettled(g: Game, st: State, action: PlayerAction)
    requires HandInv(g, st)
    requires Apply(g.cfg, st.seats[st.toAct.value].value, st.currentBet, st.lastRaise, action).Played?
    ensures var o := Apply(g.cfg, st.seats[st.toAct.value].value, st.currentBet, st.lastRaise, action);
      && Acts(st.seats, st.toAct.value, st.currentBet, Mid(st, o).seats, o.bet)
      && Settled(g, Mid(st, o), Base(st)) && SameDeal(st, Mid(st, o))
  {
    var t := st.toAct.value;
    var o := Apply(g.cfg, st.seats[t].value, st.currentBet, st.lastRaise, action);
    var mid := Mid(st, o);
    ApplyActs(g.cfg, st.seats, t, st.currentBet, st.lastRaise, action);
    SaneKept(st.seats, t, st.currentBet, mid.seats, o.bet);
    LevelKept(st.seats, t, st.currentBet, mid.seats, o.bet, Base(st));
    CoveredKept(st.seats, t, st.currentBet, mid.seats, o.bet, Base(st));
    RaiseSizeKept(g.cfg, st.seats, t, st.currentBet, mid.seats, o.bet, st.lastRaise, o.lastRaise);
    ActsCards(st.seats, t, st.currentBet, mid.seats, o.bet);
    SameDealKeeps(st, mid);
  }

  /** With no bet on the street, an action leaves someone able to act. */
  lemma ActorsRemain(seats: seq<Slot>, t: nat, bet: nat, seats': seq<Slot>, bet': nat)
    requires Acts(seats, t, bet, seats', bet') && Sane(seats, bet)
    requires !Closed(seats, bet) && Owes(seats[t], bet) && bet' == 0
    ensures ActorSet(seats') != {}
  {
    var j := AnotherActor(seats, bet, t);
    OthersOwe(seats, t, bet, seats', bet', j);
    assert j in ActorSet(seats');
  }

  lemma LiveRemain(seats: seq<Slot>, t: nat, bet: nat, seats': seq<Slot>, bet': nat)
    requires Acts(seats, t, bet, seats', bet') && Sane(seats, bet) && !Closed(seats, bet) && CanAct(seats[t])
    ensures |LiveSet(seats')| >= 1
  {
    LiveAfter(seats, t, bet, seats', bet');
  }

  /** Passing the turn keeps the invariant. */
  lemma TurnInv(g: Game, st: State, mid: State, base: nat)
    requires HandInv(g, st) && Settled(g, mid, base) && mid.toAct == st.toAct
    requires Acts(st.seats, st.toAct.value, st.currentBet, mid.seats, mid.currentBet)
    requires !Closed(mid.seats, mid.currentBet)
    ensures var next := mid.(toAct := Next(mid.seats, st.toAct.value, CanAct)); HandInv(g, next)
  {
    var t := st.toAct.value;
    var t' := Next(mid.seats, t, CanAct);
    NextIs(mid.seats, t, CanAct);
    TurnKept(st.seats, t, st.currentBet, mid.seats, mid.currentBet, t'.value);
    var next := mid.(toAct := t');
    BaseIs(g, next, base);
  }
}
