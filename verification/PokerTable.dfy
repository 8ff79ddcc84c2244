/** The table as the program has it: one object whose methods update its fields, proved to follow `HandRules`. */
module PokerTable {
  import opened Common
  import opened Cards
  import opened Pots
  import opened Seats
  import opened Betting
  import opened HandRules
  import opened ShowdownProofs
  import opened HandInvariant
  import opened HandRuns
  import opened HandStart
  import opened TableSession
  import opened TableDirectory
  import opened SeatLists

  // ---------------------------------------------------------------- facts the loops lean on

  /** Stepping from an all-in seat to the next live one never jumps over a player able to act. */
  lemma SkipStep(seats: seq<Slot>, from: nat, cur: nat, next: nat)
    requires from < |seats| && cur < |seats| && !CanAct(seats[cur]) && IsNext(seats, cur, 1, Live, next)
    requires forall k: nat :: k < |seats| && CanAct(seats[k]) ==> Gap(|seats|, from, cur) <= Gap(|seats|, from, k)
    requires ActorSet(seats) != {}
    ensures Gap(|seats|, from, cur) < Gap(|seats|, from, next)
    ensures forall k: nat :: k < |seats| && CanAct(seats[k]) ==> Gap(|seats|, from, next) <= Gap(|seats|, from, k)
  {
  }

  lemma {:induction false} CreditAllAppend(seats: seq<Slot>, shares: seq<PotShare>, s: PotShare)
    ensures CreditAll(seats, shares + [s]) == Credit(CreditAll(seats, shares), s)
    decreases |shares|
  {
    if shares == [] {
      assert [] + [s] == [s];
    } else {
      assert (shares + [s])[1..] == shares[1..] + [s];
      CreditAllAppend(Credit(seats, shares[0]), shares[1..], s);
    }
  }

  lemma {:induction false} CreditAllSplit(seats: seq<Slot>, s: seq<PotShare>, t: seq<PotShare>)
    ensures CreditAll(seats, s + t) == CreditAll(CreditAll(seats, s), t)
    decreases |s|
  {
    if s == [] {
      assert s + t == t;
    } else {
      assert (s + t)[1..] == s[1..] + t;
      CreditAllSplit(Credit(seats, s[0]), s[1..], t);
    }
  }

  lemma {:induction false} PotsAppend(g: Game, st: State, pots: seq<Pot>, pot: Pot)
    requires GoodConfig(g.cfg)
    ensures AllShares(g, st, pots + [pot]) == AllShares(g, st, pots) + PotShares(g, st, pot)
    ensures TotalRake(g, st.flopSeen, pots + [pot]) == TotalRake(g, st.flopSeen, pots) + PotRake(g, st.flopSeen, pot)
  {
    if pots == [] {
      assert [] + [pot] == [pot];
      assert [pot][1..] == [];
    } else {
      assert (pots + [pot])[1..] == pots[1..] + [pot];
      PotsAppend(g, st, pots[1..], pot);
    }
  }

  /** Any crediting keeps the same faces in the seats. */
  lemma {:induction false} CreditAllFaces(seats: seq<Slot>, shares: seq<PotShare>)
    ensures SameFaces(seats, CreditAll(seats, shares))
    decreases |shares|
  {
    if shares != [] {
      var next := Credit(seats, shares[0]);
      CreditAllFaces(next, shares[1..]);
      assert SameFaces(seats, next);
      FacesCompose(seats, next, CreditAll(next, shares[1..]));
    }
  }

  /** Paying the pots one after the other credits all their shares. */
  lemma PaidSoFar(g: Game, st: State, back: seq<Slot>, j: nat)
    requires GoodConfig(g.cfg) && j < |ShowdownPots(st)| && SameFaces(st.seats, back)
    ensures var pots := ShowdownPots(st); var paid := CreditAll(back, AllShares(g, st, pots[..j]));
      && SameFaces(st.seats, paid)
      && AllShares(g, st, pots[..j + 1]) == AllShares(g, st, pots[..j]) + PotShares(g, st, pots[j])
      && CreditAll(back, AllShares(g, st, pots[..j + 1])) == CreditAll(paid, PotShares(g, st, pots[j]))
      && TotalRake(g, st.flopSeen, pots[..j + 1]) == TotalRake(g, st.flopSeen, pots[..j]) + PotRake(g, st.flopSeen, pots[j])
  {
    hide PotShares, PotRake, ShowdownPots, CreditAll, AllShares, TotalRake, SameFaces;
    var pots := ShowdownPots(st);
    PotsAppend(g, st, pots[..j], pots[j]);
    assert pots[..j + 1] == pots[..j] + [pots[j]];
    CreditAllSplit(back, AllShares(g, st, pots[..j]), PotShares(g, st, pots[j]));
    CreditAllFaces(back, AllShares(g, st, pots[..j]));
    FacesCompose(st.seats, back, CreditAll(back, AllShares(g, st, pots[..j])));
  }

  /** What a showdown needs so that no hand evaluation can fail. */
  ghost predicate ShowReady(g: Game, st: State) {
    GoodConfig(g.cfg) && |st.board| == 5 && DistinctPlayers(st.seats) && HolesDealt(st.seats)
  }

  /** What the street machinery needs: a settled round with two players live, and an actor left if nothing was bet. */
  ghost predicate RoundReady(g: Game, st: State, base: nat) {
    Settled(g, st, base) && |LiveSet(st.seats)| >= 2 && (st.currentBet == 0 ==> ActorSet(st.seats) != {})
  }

  lemma RoundBasics(g: Game, st: State, base: nat)
    requires RoundReady(g, st, base)
    ensures Running(g, st) && NobodySitsOut(st.seats) && DistinctPlayers(st.seats) && |LiveSet(st.seats)| >= 2
  {
  }

  lemma RoundBegins(g: Game, st: State, base: nat)
    requires RoundReady(g, st, base) && Running(g, st) && Closed(st.seats, st.currentBet)
    requires !st.street.River? && !IsRunOut(st.seats)
    ensures HandInv(g, NextStreet(g, st))
  {
    BeginInv(g, st, base);
  }

  lemma RunOutReady(g: Game, st: State, base: nat)
    requires RoundReady(g, st, base) && DeckReady(st)
    ensures ShowReady(g, RunOut(st))
  {
  }

  lemma ReadyAnyTurn(g: Game, st: State, base: nat, t: Option<nat>)
    requires RoundReady(g, st, base) && (t.Some? ==> t.value < |st.seats|)
    ensures RoundReady(g, st.(toAct := t), base)
  {
  }

  lemma HandBasics(g: Game, st: State)
    requires HandInv(g, st)
    ensures Running(g, st) && st.toAct.Some? && CanAct(st.seats[st.toAct.value])
  {
  }

  lemma AdvanceBasics(g: Game, st: State, mid: State)
    requires HandInv(g, st) && Settled(g, mid, Base(st)) && mid.toAct == st.toAct
    requires Acts(st.seats, st.toAct.value, st.currentBet, mid.seats, mid.currentBet)
    ensures Running(g, mid) && NobodySitsOut(mid.seats) && DistinctPlayers(mid.seats) && |LiveSet(mid.seats)| >= 1
    ensures |LiveSet(mid.seats)| >= 2 ==> RoundReady(g, mid, Base(st))
    ensures st.toAct.value < |mid.seats|
  {
    LiveRemain(st.seats, st.toAct.value, st.currentBet, mid.seats, mid.currentBet);
    if mid.currentBet == 0 {
      ActorsRemain(st.seats, st.toAct.value, st.currentBet, mid.seats, mid.currentBet);
    }
  }

  lemma RoundAnyTurn(g: Game, st: State, t: Option<nat>)
    requires HandInv(g, st) && (t.Some? ==> t.value < |st.seats|)
    ensures RoundReady(g, st.(toAct := t), Base(st)) && NobodySitsOut(st.seats) && !Closed(st.seats, st.currentBet)
  {
  }

  /** While betting is open there is somebody to act, hence a next live seat. */
  lemma OpenHasNext(seats: seq<Slot>, bet: nat, from: nat)
    requires !Closed(seats, bet) && from < |seats|
    ensures ActorSet(seats) != {} && Next(seats, from, Live).Some?
    ensures IsNext(seats, from, 1, Live, Next(seats, from, Live).value)
  {
    NextIs(seats, from, Live);
    var i :| i in ActorSet(seats);
    assert Live(seats[i]);
  }

  /** Heads-up, the seat after the big blind is the button. */
  lemma HeadsUpFirst(seats: seq<Slot>, button: nat)
    requires button < |seats| && Live(seats[button]) && |LiveSet(seats)| == 2
    ensures Next(seats, BigBlindSeat(seats, button), Live) == Some(button)
  {
    var bb := BigBlindSeat(seats, button);
    BlindSeats(seats, button);
    NextIs(seats, bb, Live);
    var next := Next(seats, bb, Live).value;
    assert {button, bb} <= LiveSet(seats);
    assert |{button, bb}| == 2;
    if next != button && next != bb {
      assert {button, bb, next} <= LiveSet(seats);
      SubsetSize({button, bb, next}, LiveSet(seats));
    }
  }

  lemma IdleBasics(g: Game, st: State)
    requires IdleInv(g, st)
    ensures GoodConfig(g.cfg) && |st.seats| == g.cfg.seats && !st.awaiting && st.toAct.None?
    ensures st.button.Some? ==> st.button.value < |st.seats|
  {
  }

  /** After the marks are wiped and the button moved, the blinds can be posted. */
  lemma ResetReady(g: Game, st: State)
    requires IdleInv(g, st) && |ReadySet(st.seats)| >= 2
    ensures var reset := MapSeats(st.seats, FreshHand); var b := NextButton(reset, st.button);
      b < |reset| && Live(reset[b]) && |LiveSet(reset)| >= 2 && NobodySitsOut(reset)
  {
    ButtonLive(g, st);
    ResetFresh(g, st);
  }

  lemma {:induction false} SameScan(a: seq<Slot>, b: seq<Slot>, from: nat, k: nat)
    requires |a| == |b| && from < |a| && 1 <= k <= |a| + 1 && forall i: nat :: i < |a| ==> Live(a[i]) == Live(b[i])
    ensures Scan(a, from, k, Live) == Scan(b, from, k, Live)
    decreases |a| + 1 - k
  {
    if k <= |a| {
      SameScan(a, b, from, k + 1);
    }
  }

  lemma SameBlinds(a: seq<Slot>, b: seq<Slot>, button: nat)
    requires |a| == |b| && button < |a| && forall i: nat :: i < |a| ==> Live(a[i]) == Live(b[i])
    ensures LiveSet(a) == LiveSet(b) && BigBlindSeat(a, button) == BigBlindSeat(b, button)
  {
    SameScan(a, b, button, 1);
    assert LiveSet(a) == LiveSet(b);
    SameScan(a, b, SmallBlindSeat(a, button), 1);
  }

  /** A freshly dealt hand is ready for its first betting round, first to act after the big blind. */
  lemma OpenedReady(g: Game, st: State, deck: seq<Card>)
    requires IdleInv(g, st) && |deck| == DECK_SIZE && |ReadySet(st.seats)| >= 2
    requires NextButton(MapSeats(st.seats, FreshHand), st.button) < |st.seats|
    ensures var dealt := Opened(g, st, deck);
      && RoundReady(g, dealt, 0) && NobodySitsOut(dealt.seats) && |LiveSet(dealt.seats)| >= 2
      && dealt.button.Some? && dealt.button.value < |dealt.seats| && Live(dealt.seats[dealt.button.value])
      && BigBlindSeat(dealt.seats, dealt.button.value) < |dealt.seats|
      && dealt.toAct == Next(dealt.seats, BigBlindSeat(dealt.seats, dealt.button.value), CanAct)
  {
    var reset := MapSeats(st.seats, FreshHand);
    var b := NextButton(reset, st.button);
    var dealt := Opened(g, st, deck);
    ButtonLive(g, st);
    OpenedSettled(g, st, deck);
    OpenedSeats(g, st, deck);
    forall i: nat | i < |reset|
      ensures Live(dealt.seats[i]) == Live(reset[i])
    {
      assert DealtSeat(reset[i], dealt.seats[i], BlindOf(g, reset, b, i));
    }
    SameBlinds(reset, dealt.seats, b);
  }

  lemma PotIgnoresTurn(g: Game, a: State, b: State, pot: Pot)
    requires GoodConfig(g.cfg) && a.seats == b.seats && a.board == b.board && a.flopSeen == b.flopSeen
    ensures PotShares(g, a, pot) == PotShares(g, b, pot)
  {
  }

  lemma {:induction false} SharesIgnoreTurn(g: Game, a: State, b: State, pots: seq<Pot>)
    requires GoodConfig(g.cfg) && a.seats == b.seats && a.board == b.board && a.flopSeen == b.flopSeen
    ensures AllShares(g, a, pots) == AllShares(g, b, pots)
  {
    hide PotShares;
    if pots != [] {
      PotIgnoresTurn(g, a, b, pots[0]);
      SharesIgnoreTurn(g, a, b, pots[1..]);
    }
  }

  lemma ShowdownIgnoresTurn(g: Game, st: State, t: Option<nat>)
    requires GoodConfig(g.cfg)
    ensures DoShowdown(g, st.(toAct := t)) == DoShowdown(g, st)
  {
    SharesIgnoreTurn(g, st.(toAct := t), st, ShowdownPots(st));
  }

  lemma DealingIgnoresTurn(st: State, t: Option<nat>)
    requires IsBetting(st.street) && DeckReady(st)
    ensures RunOut(st.(toAct := t)) == RunOut(st).(toAct := t)
  {
    hide DealFlop, DealOne;
    match st.street
    case Preflop =>
      FlopIgnoresTurn(st, t);
      OneIgnoresTurn(DealFlop(st), t);
      OneIgnoresTurn(DealOne(DealFlop(st)), t);
    case Flop =>
      OneIgnoresTurn(st, t);
      OneIgnoresTurn(DealOne(st), t);
    case Turn => OneIgnoresTurn(st, t);
    case _ =>
  }

  lemma FlopIgnoresTurn(st: State, t: Option<nat>)
    requires st.cursor + 4 <= |st.deck|
    ensures DealFlop(st.(toAct := t)) == DealFlop(st).(toAct := t)
    ensures DealFlop(st).cursor == st.cursor + 4 && DealFlop(st).deck == st.deck
  {
  }

  lemma OneIgnoresTurn(st: State, t: Option<nat>)
    requires st.cursor + 2 <= |st.deck|
    ensures DealOne(st.(toAct := t)) == DealOne(st).(toAct := t)
    ensures DealOne(st).cursor == st.cursor + 2 && DealOne(st).deck == st.deck
  {
  }

  /** Closing a round takes no notice of whose turn it was. */
  lemma TurnIgnored(g: Game, st: State, t: Option<nat>)
    requires Running(g, st) && (t.Some? ==> t.value < |st.seats|)
    ensures NextStreet(g, st.(toAct := t)) == NextStreet(g, st)
  {
    hide DoShowdown, IsRunOut, MapSeats, Next, RunOut;
    DealingIgnoresTurn(st, t);
    ShowdownIgnoresTurn(g, RunOut(st), t);
  }

  // ---------------------------------------------------------------- the table

  class Table {
    const tableId: TableId
    const g: Game
    var seats: seq<Slot>
    var street: Street
    var handId: nat
    var buttonSeat: Option<nat>
    var toActSeat: Option<nat>
    var currentBet: nat
    var lastFullRaiseSize: nat
    var board: seq<Card>
    var burns: seq<Card>
    /** The deck of the hand's deal and how many cards have been taken from it. */
    var deck: seq<Card>
    var cursor: nat
    var flopSeen: bool
    var handAwaitingFinalize: bool
    var winners: seq<PotShare>
    /** The rake of the hand, which the program only logs. */
    ghost var rake: nat

    ghost function View(): State
      reads this
    {
      State(street, handId, buttonSeat, toActSeat, currentBet, lastFullRaiseSize, seats, board, burns, deck, cursor,
            flopSeen, handAwaitingFinalize, winners, rake)
    }

    ghost function AsRoom(): Room
      reads this
    {
      Room(tableId, g, View())
    }

    ghost predicate Valid()
      reads this
    {
      TableInv(g, View())
    }

    constructor (tableId: TableId, g: Game)
      requires GoodConfig(g.cfg)
      ensures Valid() && this.tableId == tableId && this.g == g && View() == NewTable(g)
    {
      this.tableId, this.g := tableId, g;
      seats := seq(g.cfg.seats, _ => None);
      street, handId, buttonSeat, toActSeat := Waiting, 0, None, None;
      currentBet, lastFullRaiseSize := 0, 0;
      board, burns, deck, cursor := [], [], [], 0;
      flopSeen, handAwaitingFinalize, winners := false, false, [];
      rake := 0;
      new;
      NewTableInv(g);
    }

    // -------------------------------------------------------------- seat navigation

    method NextLiveSeat(from: nat) returns (r: Option<nat>)
      requires from < |seats| && NobodySitsOut(seats)
      ensures r == Next(seats, from, Live)
    {
      for i := 1 to |seats| + 1
        invariant Scan(seats, from, 1, Live) == Scan(seats, from, i, Live)
      {
        var idx := StepFrom(|seats|, from, i);
        var p := seats[idx];
        if p.Some? && !p.value.folded && !p.value.sittingOut {
          return Some(idx);
        }
      }
      return None;
    }

    /** The program's test for the end of a betting round. */
    method BettingClosed() returns (closed: bool)
      ensures closed == Closed(seats, currentBet)
    {
      ClosedAgrees(seats, currentBet);
      var live := LiveList(seats);
      if |live| <= 1 {
        return true;
      }
      var canAct := NotAllIn(live);
      if |canAct| == 0 {
        return true;
      }
      if |canAct| == 1 && canAct[0].streetCommit >= currentBet {
        var othersMatched := forall p :: p in live ==>
          p.allIn || p.streetCommit == canAct[0].streetCommit || p.streetCommit == currentBet;
        if othersMatched && canAct[0].acted {
          return true;
        }
        if exists p :: p in live && p.allIn {
          return canAct[0].acted || canAct[0].streetCommit >= currentBet;
        }
      }
      return forall p :: p in canAct ==> p.acted && (p.streetCommit == currentBet || p.allIn);
    }

    // -------------------------------------------------------------- chips and cards

    method Put(i: nat, amount: int) returns (error: Option<TableError>)
      requires i < |seats| && seats[i].Some?
      modifies this`seats
      ensures error == if 0 <= amount <= old(seats)[i].value.stack then None else Some(InvalidPut)
      ensures seats == if error.None? then old(seats)[i := Some(Betting.Put(old(seats)[i].value, amount))] else old(seats)
    {
      var p := seats[i].value;
      if amount < 0 || amount > p.stack {
        return Some(InvalidPut);
      }
      p := p.(stack := p.stack - amount);
      p := p.(streetCommit := p.streetCommit + amount);
      p := p.(handCommit := p.handCommit + amount);
      if p.stack == 0 {
        p := p.(allIn := true);
      }
      seats := seats[i := Some(p)];
      return None;
    }

    /** `deal.next()` and `deal.burn()`: the next card of the deck. */
    method Take() returns (c: Option<Card>)
      modifies this`cursor
      ensures cursor == old(cursor) + 1 && c == if old(cursor) < |deck| then Some(deck[old(cursor)]) else None
    {
      c := if cursor < |deck| then Some(deck[cursor]) else None;
      cursor := cursor + 1;
    }

    method DealFlop()
      requires cursor + 4 <= |deck|
      modifies this`burns, this`board, this`cursor
      ensures View() == HandRules.DealFlop(old(View())).(flopSeen := flopSeen)
    {
      var burn := Take();
      burns := burns + [burn.value];
      var a := Take();
      var b := Take();
      var c := Take();
      assert deck[old(cursor) + 1..old(cursor) + 4] == [a.value, b.value, c.value];
      board := board + [a.value, b.value, c.value];
    }

    method DealOne()
      requires cursor + 2 <= |deck|
      modifies this`burns, this`board, this`cursor
      ensures View() == HandRules.DealOne(old(View()))
    {
      var burn := Take();
      burns := burns + [burn.value];
      var c := Take();
      board := board + [c.value];
    }

    // -------------------------------------------------------------- acting

    method ResetActionExcept(id: PlayerId)
      modifies this`seats
      ensures seats == Reopen(old(seats), id)
    {
      for k := 0 to |seats|
        invariant |seats| == |old(seats)|
        invariant forall j :: 0 <= j < k ==> seats[j] == Reopened(old(seats)[j], id)
        invariant forall j :: k <= j < |seats| ==> seats[j] == old(seats)[j]
      {
        if seats[k].Some? {
          var s := seats[k].value;
          if !(s.playerId == id || s.folded || s.allIn) {
            seats := seats[k := Some(s.(acted := false))];
          }
        }
      }
    }

    ghost predicate Applied(before: State, i: nat, action: PlayerAction, error: Option<TableError>)
      requires i < |before.seats| && before.seats[i].Some?
      reads this
    {
      match Apply(g.cfg, before.seats[i].value, before.currentBet, before.lastRaise, action)
      case Refused(e) => error == Some(e) && View() == before
      case Played(seat, bet, raise, reopen) =>
        error == None &&
        View() == before.(seats := (if reopen then Reopen(before.seats, seat.playerId) else before.seats)[i := Some(seat)],
                          currentBet := bet, lastRaise := raise)
    }

    method ApplyAction(i: nat, action: PlayerAction) returns (error: Option<TableError>)
      requires i < |seats| && seats[i].Some?
      modifies this`seats, this`currentBet, this`lastFullRaiseSize
      ensures Applied(old(View()), i, action, error)
    {
      var p := seats[i].value;
      var legal := LegalFor(g.cfg, p, currentBet, lastFullRaiseSize);
      LegalIsOffered(g.cfg, p, currentBet, lastFullRaiseSize, action.kind);
      var spec := Lookup(legal, action.kind);
      if spec.None? {
        return Some(IllegalAction);
      }
      error := None;
      match action.kind {
        case Fold =>
          seats := seats[i := Some(p.(folded := true))];
        case Check =>
          assert seats[i := Some(p)] == seats;
        case Call =>
          var toCall := Min(currentBet - p.streetCommit, p.stack);
          error := Put(i, toCall);
        case Bet => error := ApplyBet(i, action, spec.value);
        case Raise => error := ApplyRaise(i, action, spec.value);
        case AllIn => ApplyAllIn(i, action);
      }
    }

    method ApplyBet(i: nat, action: PlayerAction, spec: LegalAction) returns (error: Option<TableError>)
      requires i < |seats| && seats[i].Some? && action.kind.Bet?
      requires Offer(g.cfg, seats[i].value, currentBet, lastFullRaiseSize, Bet) == Some(spec)
      modifies this`seats, this`currentBet, this`lastFullRaiseSize
      ensures Applied(old(View()), i, action, error)
    {
      if action.amount < spec.min || action.amount > spec.max {
        return Some(BadAmount);
      }
      var refused := Put(i, action.amount);
      var raiseSize := action.amount - currentBet;
      currentBet := seats[i].value.streetCommit;
      lastFullRaiseSize := Max(raiseSize, g.cfg.bigBlind);
      ResetActionExcept(seats[i].value.playerId);
      ReopenActor(old(seats), i, Betting.Put(old(seats)[i].value, action.amount));
      return None;
    }

    method ApplyRaise(i: nat, action: PlayerAction, spec: LegalAction) returns (error: Option<TableError>)
      requires i < |seats| && seats[i].Some? && action.kind.Raise?
      requires Offer(g.cfg, seats[i].value, currentBet, lastFullRaiseSize, Raise) == Some(spec)
      modifies this`seats, this`currentBet, this`lastFullRaiseSize
      ensures Applied(old(View()), i, action, error)
    {
      if action.amount < spec.min || action.amount > spec.max {
        return Some(BadAmount);
      }
      var put := action.amount - seats[i].value.streetCommit;
      var raiseSize := action.amount - currentBet;
      var refused := Put(i, put);
      currentBet := seats[i].value.streetCommit;
      if raiseSize >= lastFullRaiseSize {
        lastFullRaiseSize := raiseSize;
        ResetActionExcept(seats[i].value.playerId);
        ReopenActor(old(seats), i, Betting.Put(old(seats)[i].value, put));
      }
      return None;
    }

    method ApplyAllIn(i: nat, action: PlayerAction)
      requires i < |seats| && seats[i].Some? && action.kind.AllIn? && seats[i].value.stack > 0
      modifies this`seats, this`currentBet, this`lastFullRaiseSize
      ensures Applied(old(View()), i, action, None)
    {
      var put := seats[i].value.stack;
      var newCommit := seats[i].value.streetCommit + put;
      var raiseSize := newCommit - currentBet;
      var refused := Put(i, put);
      if newCommit > currentBet {
        var full := raiseSize >= lastFullRaiseSize && raiseSize > 0;
        currentBet := newCommit;
        if full {
          lastFullRaiseSize := raiseSize;
          ResetActionExcept(seats[i].value.playerId);
          ReopenActor(old(seats), i, Betting.Put(old(seats)[i].value, put));
        }
      }
    }

    /** Reopening the action skips the actor, so it commutes with the actor's own update. */
    static lemma ReopenActor(seats: seq<Slot>, i: nat, p: Seat)
      requires i < |seats|
      ensures Reopen(seats[i := Some(p)], p.playerId) == Reopen(seats, p.playerId)[i := Some(p)]
    {
    }

    // -------------------------------------------------------------- paying out

    /** `evaluateHoldem`: it refuses anything but two hole cards and five board cards, so callers must have them. */
    method Evaluate(p: Seat) returns (value: nat)
      requires |p.hole| == 2 && |board| == 5
      ensures value == g.value(p.hole, board)
    {
      value := g.value(p.hole, board);
    }

    /** Score every contender of a pot. */
    method ScoreContenders(ids: seq<PlayerId>) returns (values: seq<nat>)
      requires |board| == 5 && forall id :: id in ids ==> HasHole(seats, id)
      ensures |values| == |ids| && forall j :: 0 <= j < |ids| ==> values[j] == HandValue(g, seats, board, ids[j])
    {
      values := [];
      for i := 0 to |ids|
        invariant |values| == i
        invariant forall j :: 0 <= j < i ==> values[j] == HandValue(g, seats, board, ids[j])
      {
        assert ids[i] in ids && HasHole(seats, ids[i]);
        var v := Evaluate(seats[FindSeat(seats, ids[i]).value].value);
        values := values + [v];
      }
    }

    /** The eligible players whose hand value is the best of the pot. */
    method ScorePot(pot: Pot) returns (ids: seq<PlayerId>)
      requires |board| == 5 && forall id :: id in pot.eligible ==> HasHole(seats, id)
      ensures ids == PotWinners(g, seats, board, pot)
    {
      hide HasHole, HandValue, BestValue;
      var values := ScoreContenders(pot.eligible);
      var best := BestValue(g, seats, board, pot.eligible);
      ids := [];
      assert pot.eligible[0..] == pot.eligible;
      for i := 0 to |pot.eligible|
        invariant ids + WithValue(g, seats, board, pot.eligible[i..], best) == WithValue(g, seats, board, pot.eligible, best)
      {
        assert pot.eligible[i..][1..] == pot.eligible[i + 1..];
        if values[i] == best {
          ids := ids + [pot.eligible[i]];
        }
      }
    }

    method CreditOne(share: PotShare)
      modifies this`seats
      ensures seats == Credit(old(seats), share)
    {
      var found := FindSeat(seats, share.playerId);
      if found.Some? {
        var p := seats[found.value].value;
        seats := seats[found.value := Some(p.(stack := p.stack + share.amount))];
      }
    }

    method CreditShares(shares: seq<PotShare>)
      modifies this`seats, this`winners
      ensures seats == CreditAll(old(seats), shares) && winners == old(winners) + shares
    {
      for i := 0 to |shares|
        invariant seats == CreditAll(old(seats), shares[..i]) && winners == old(winners) + shares[..i]
      {
        CreditAllAppend(old(seats), shares[..i], shares[i]);
        assert shares[..i + 1] == shares[..i] + [shares[i]];
        CreditOne(shares[i]);
        winners := winners + [shares[i]];
      }
      assert shares[..|shares|] == shares;
    }

    /** Give an uncalled bet back, in the stacks and in the contributions. */
    method ReturnUncalledBet() returns (contribs: seq<Contribution>)
      requires DistinctPlayers(seats)
      modifies this`seats
      ensures contribs == AfterReturn(Contribs(old(seats)))
      ensures seats == UncommitAll(old(seats), Refund(Contribs(old(seats))))
    {
      hide Uncalled, TopIndex, Uncommit, DistinctPlayers;
      var c := Contribs(seats);
      ContribsDistinct(seats);
      var records := new Contribution[|c|](i requires 0 <= i < |c| => c[i]);
      assert records[..] == c;
      var returned := ReturnUncalled(records);
      if returned != [] {
        ghost var h := RefundSeat(seats);
        GiveBack(returned[0]);
        assert UncommitAll(seats, []) == seats;
      }
      contribs := records[..];
    }

    /** One uncalled amount back to its player's stack. */
    method GiveBack(r: PotShare)
      requires FindSeat(seats, r.playerId).Some? && seats[FindSeat(seats, r.playerId).value].value.handCommit >= r.amount
      modifies this`seats
      ensures seats == Uncommit(old(seats), r)
    {
      var k := FindSeat(seats, r.playerId).value;
      var p := seats[k].value;
      seats := seats[k := Some(p.(stack := p.stack + r.amount, handCommit := p.handCommit - r.amount))];
    }

    /** One pot of the showdown: score, rake, split, pay. */
    method PayPot(pot: Pot, ghost before: State, ghost j: nat) returns (raked: nat)
      requires ShowReady(g, before) && SameFaces(before.seats, seats)
      requires board == before.board && flopSeen == before.flopSeen
      requires j < |ShowdownPots(before)| && pot == ShowdownPots(before)[j]
      modifies this`seats, this`winners
      ensures seats == CreditAll(old(seats), PotShares(g, before, pot))
      ensures winners == old(winners) + PotShares(g, before, pot)
      ensures raked == PotRake(g, before.flopSeen, pot)
    {
      hide ShowdownPots, RakeOn, SameFaces, WithValue, BestValue, HolesDealt, DistinctPlayers;
      if pot.eligible == [] {
        return 0;
      }
      EligibleReady(before, seats, j);
      var winnerIds := ScorePot(pot);
      SameValues(g, before.seats, seats, board, pot.eligible);
      var amount := pot.amount;
      raked := RakeOn(g, flopSeen, amount);
      amount := amount - raked;
      CreditShares(SplitPot(amount, winnerIds));
    }

    method PayPots(pots: seq<Pot>, ghost before: State) returns (totalRake: nat)
      requires ShowReady(g, before) && SameFaces(before.seats, seats)
      requires board == before.board && flopSeen == before.flopSeen
      requires pots == ShowdownPots(before) && winners == []
      modifies this`seats, this`winners
      ensures seats == CreditAll(old(seats), AllShares(g, before, pots)) && winners == AllShares(g, before, pots)
      ensures totalRake == TotalRake(g, before.flopSeen, pots)
    {
      hide ShowdownPots, SameFaces, HolesDealt, DistinctPlayers, PotShares, PotRake;
      totalRake := 0;
      for j := 0 to |pots|
        modifies this`seats, this`winners
        invariant seats == CreditAll(old(seats), AllShares(g, before, pots[..j])) && winners == AllShares(g, before, pots[..j])
        invariant totalRake == TotalRake(g, before.flopSeen, pots[..j])
      {
        PaidSoFar(g, before, old(seats), j);
        var raked := PayPot(pots[j], before, j);
        totalRake := totalRake + raked;
      }
      assert pots[..|pots|] == pots;
    }

    /** Return the uncalled bet, build the pots and pay them. */
    method PayShowdown(ghost before: State) returns (totalRake: nat)
      requires ShowReady(g, before) && seats == before.seats && board == before.board && flopSeen == before.flopSeen
      modifies this`seats, this`winners
      ensures seats == CreditAll(UncommitAll(before.seats, Refund(Contribs(before.seats))), ShowdownShares(g, before))
      ensures winners == ShowdownShares(g, before) && totalRake == TotalRake(g, before.flopSeen, ShowdownPots(before))
    {
      RefundIs(seats);
      var contribs := ReturnUncalledBet();
      var pots := BuildPots(contribs);
      winners := [];
      totalRake := PayPots(pots, before);
    }

    method ShowdownHand()
      requires ShowReady(g, View())
      modifies this
      ensures View() == DoShowdown(g, old(View()))
    {
      hide AfterReturn, ShowdownPots, ShowdownShares, Refund, CreditAll, UncommitAll, Contribs, TotalRake, HolesDealt, DistinctPlayers;
      street := Showdown;
      toActSeat := None;
      rake := PayShowdown(old(View()));
      street := Payout;
      handAwaitingFinalize := true;
    }

    /** Return the uncalled bet and give the winner the rest of the pot, less rake. */
    method PayUncontested(winner: PlayerId) returns (share: PotShare, raked: nat)
      requires GoodConfig(g.cfg) && DistinctPlayers(seats)
      modifies this`seats
      ensures var pot := TotalCommitted(AfterReturn(Contribs(old(seats))));
        raked == RakeOn(g, flopSeen, pot) && share == PotShare(winner, pot - raked)
      ensures seats == Credit(UncommitAll(old(seats), Refund(Contribs(old(seats)))), share)
    {
      var contribs := ReturnUncalledBet();
      var pot := TotalCommitted(contribs);
      raked := RakeOn(g, flopSeen, pot);
      share := PotShare(winner, pot - raked);
      CreditOne(share);
    }

    method AwardUncontested(winner: PlayerId)
      requires GoodConfig(g.cfg) && DistinctPlayers(seats)
      modifies this
      ensures View() == HandRules.AwardUncontested(g, old(View()), winner)
    {
      hide AfterReturn, Refund, RakeOn, Credit, UncommitAll, Contribs, TotalCommitted, DistinctPlayers, GoodConfig;
      street := Payout;
      toActSeat := None;
      var share, raked := PayUncontested(winner);
      winners := [share];
      rake := raked;
      handAwaitingFinalize := true;
    }

    // -------------------------------------------------------------- streets

    /** The loop that clears the street's marks off every seat. */
    method ResetStreet()
      modifies this`seats
      ensures seats == MapSeats(old(seats), FreshStreet)
    {
      for k := 0 to |seats|
        invariant |seats| == |old(seats)|
        invariant forall j :: 0 <= j < k ==> seats[j] == MapSlot(old(seats)[j], FreshStreet)
        invariant forall j :: k <= j < |seats| ==> seats[j] == old(seats)[j]
      {
        if seats[k].Some? {
          var p := seats[k].value;
          seats := seats[k := Some(p.(streetCommit := 0, acted := false))];
        }
      }
    }

    /** Step past all-in players to the first who can act, unless betting turns out to be closed. */
    method SkipAllIns(ghost from: nat) returns (closed: bool)
      requires |seats| == g.cfg.seats && NobodySitsOut(seats) && from < |seats|
      requires toActSeat == Next(seats, from, Live) && toActSeat.Some?
      modifies this`toActSeat
      ensures closed == Closed(seats, currentBet)
      ensures toActSeat == if closed then old(toActSeat) else Next(seats, from, CanAct)
    {
      hide Closed, Next;
      NextIs(seats, from, Live);
      var guard := 0;
      while guard < g.cfg.seats
        invariant toActSeat.Some? && toActSeat.value < |seats| && guard < Gap(|seats|, from, toActSeat.value)
        invariant forall k: nat :: k < |seats| && CanAct(seats[k]) ==> Gap(|seats|, from, toActSeat.value) <= Gap(|seats|, from, k)
        invariant if guard == 0 then toActSeat == old(toActSeat) else !Closed(seats, currentBet)
        decreases g.cfg.seats - guard
      {
        var p := seats[toActSeat.value];
        if p.Some? && !p.value.folded && !p.value.allIn {
          break;
        }
        closed := BettingClosed();
        if closed {
          return;
        }
        var next := NextLiveSeat(toActSeat.value);
        OpenHasNext(seats, currentBet, toActSeat.value);
        SkipStep(seats, from, toActSeat.value, next.value);
        toActSeat := next;
        guard := guard + 1;
      }
      NextUnique(seats, from, CanAct, toActSeat.value);
      closed := BettingClosed();
    }

    method SkipAllInsAndMaybeClose(ghost base: nat, ghost from: nat)
      requires RoundReady(g, View(), base) && from < |seats| && toActSeat == Next(seats, from, Live) && toActSeat.Some?
      modifies this
      ensures Closed(old(seats), old(currentBet)) ==> View() == NextStreet(g, old(View()))
      ensures !Closed(old(seats), old(currentBet)) ==> View() == old(View()).(toAct := Next(old(seats), from, CanAct))
      decreases StreetsLeft(street), 2
    {
      hide RoundReady, NextStreet, Closed, Next;
      RoundBasics(g, View(), base);
      var closed := SkipAllIns(from);
      if closed {
        NextStreetOrShowdown(base);
      }
    }

    /** The flop, or one more board card. */
    method DealNext()
      requires IsBetting(street) && !street.River? && DeckReady(View())
      modifies this`burns, this`board, this`cursor, this`flopSeen
      ensures View() == if street.Preflop? then HandRules.DealFlop(old(View())) else HandRules.DealOne(old(View()))
    {
      if street.Preflop? {
        DealFlop();
        flopSeen := true;
      } else {
        DealOne();
      }
    }

    /** Betting is over: run the board out and show down, or deal the next street. */
    method NextStreetOrShowdown(ghost base: nat)
      requires RoundReady(g, View(), base) && Closed(seats, currentBet)
      modifies this
      ensures View() == NextStreet(g, old(View()))
      decreases StreetsLeft(street), 1
    {
      hide RoundReady, Closed, DoShowdown, HandInv, ShowReady, HandRules.BeginStreet;
      var live := LiveList(seats);
      LiveListSize(seats);
      var allInRunout := |NotAllIn(live)| <= 1 && |live| > 1;
      RoundBasics(g, View(), base);
      RunOutReady(g, View(), base);
      if street.River? {
        ShowdownHand();
        return;
      }
      if !allInRunout {
        RoundBegins(g, View(), base);
      }
      var last := street;
      DealNext();
      if !allInRunout {
        BeginStreet(NextStreetName(last));
        return;
      }
      if last.Preflop? {
        DealOne();
      }
      if last.Preflop? || last.Flop? {
        DealOne();
      }
      ShowdownHand();
    }

    /** The street's name, its clean seats, and nothing bet. */
    method OpenRound(next: Street)
      requires buttonSeat.Some? && buttonSeat.value < |seats|
      modifies this`street, this`seats, this`currentBet, this`lastFullRaiseSize
      ensures View() == HandRules.BeginStreet(g, old(View()), next).(toAct := toActSeat)
    {
      hide MapSeats, Next;
      street := next;
      ResetStreet();
      currentBet := 0;
      lastFullRaiseSize := g.cfg.bigBlind;
    }

    method BeginStreet(next: Street)
      requires IsBetting(next) && buttonSeat.Some? && buttonSeat.value < |seats|
      requires HandInv(g, HandRules.BeginStreet(g, View(), next))
      modifies this
      ensures View() == HandRules.BeginStreet(g, old(View()), next)
      decreases StreetsLeft(next), 3
    {
      hide RoundReady, Closed, HandInv, Next, MapSeats, Settled, LiveSet, ActorSet;
      ghost var goal := HandRules.BeginStreet(g, View(), next);
      RoundAnyTurn(g, goal, None);
      OpenRound(next);
      toActSeat := NextLiveSeat(buttonSeat.value);
      OpenHasNext(seats, 0, buttonSeat.value);
      RoundAnyTurn(g, goal, toActSeat);
      SkipAllInsAndMaybeClose(Base(goal), buttonSeat.value);
    }

    method AdvanceAfterAction(ghost before: State)
      requires HandInv(g, before) && before.toAct.Some? && toActSeat == before.toAct && Settled(g, View(), Base(before))
      requires Acts(before.seats, before.toAct.value, before.currentBet, seats, currentBet)
      modifies this
      ensures View() == Advance(g, old(View()), before.toAct.value)
    {
      hide Settled, Closed, HandInv, Acts, NextStreet, DoShowdown, HandRules.AwardUncontested, RoundReady, Next;
      ghost var t := before.toAct.value;
      AdvanceBasics(g, before, View());
      var live := LiveList(seats);
      LiveListSize(seats);
      if |live| == 1 {
        FirstLiveInList(seats);
        AwardUncontested(live[0].playerId);
        return;
      }
      var closed := BettingClosed();
      if closed {
        NextStreetOrShowdown(Base(before));
        return;
      }
      OpenHasNext(seats, currentBet, t);
      toActSeat := NextLiveSeat(toActSeat.value);
      ReadyAnyTurn(g, old(View()), Base(before), toActSeat);
      SkipAllInsAndMaybeClose(Base(before), t);
    }

    /**
     * A player's action. Accepted, it moves the table exactly as the rules say; refused, it changes nothing
     * at all; either way the table stays well formed.
     */
    method Act(playerId: PlayerId, action: PlayerAction) returns (error: Option<TableError>)
      requires Valid()
      modifies this
      ensures Valid()
      ensures match HandRules.Act(g, old(View()), playerId, action)
              case Ok(next) => error == None && View() == next
              case Err(e) => error == Some(e) && View() == old(View())
    {
      ghost var before := View();
      if !IsBetting(street) {
        return Some(NotBettingStreet);
      }
      if toActSeat.None? {
        return Some(NoActionToTake);
      }
      var seat := FindSeat(seats, playerId);
      if seat.None? {
        return Some(NotSeated);
      }
      if seat != toActSeat {
        return Some(NotYourTurn);
      }
      var i := seat.value;
      if seats[i].value.folded || seats[i].value.allIn {
        return Some(OutOfAction);
      }
      error := PlayAction(i, action);
      if error == None {
        ActKeeps(g, before, playerId, action);
      }
    }

    /** Apply the actor's action, mark him as having acted, and advance. */
    method PlayAction(i: nat, action: PlayerAction) returns (error: Option<TableError>)
      requires HandInv(g, View()) && toActSeat == Some(i)
      modifies this
      ensures match Apply(g.cfg, old(seats)[i].value, old(currentBet), old(lastFullRaiseSize), action)
              case Refused(e) => error == Some(e) && View() == old(View())
              case Played(p, b, r, o) => error == None && View() == Play(g, old(View()), Played(p, b, r, o))
    {
      hide Settled, Closed, HandInv, Advance;
      ghost var before := View();
      HandBasics(g, before);
      error := ApplyAction(i, action);
      if error != None {
        return;
      }
      seats := seats[i := Some(seats[i].value.(acted := true))];
      ghost var o := Apply(g.cfg, before.seats[i].value, before.currentBet, before.lastRaise, action);
      assert View() == Mid(before, o);
      MidSettled(g, before, action);
      AdvanceAfterAction(before);
    }

    // -------------------------------------------------------------- between hands

    method ClearSeats()
      modifies this`seats
      ensures seats == MapSeats(old(seats), Cleared)
    {
      for k := 0 to |seats|
        invariant |seats| == |old(seats)|
        invariant forall j :: 0 <= j < k ==> seats[j] == MapSlot(old(seats)[j], Cleared)
        invariant forall j :: k <= j < |seats| ==> seats[j] == old(seats)[j]
      {
        if seats[k].Some? {
          var s := seats[k].value;
          seats := seats[k := Some(s.(streetCommit := 0, handCommit := 0, folded := false, allIn := false, hole := [], acted := false))];
        }
      }
    }

    /** `finishHand`: wipe the hand's marks. */
    method FinishHand()
      modifies this
      ensures View() == Finish(g, old(View())).(awaiting := old(handAwaitingFinalize))
    {
      hide MapSeats;
      EndBetting();
      ClearSeats();
    }

    method EndBetting()
      modifies this`street, this`toActSeat, this`currentBet, this`lastFullRaiseSize
      ensures street.Waiting? && toActSeat == None && currentBet == 0 && lastFullRaiseSize == g.cfg.bigBlind
    {
      street := Waiting;
      toActSeat := None;
      currentBet := 0;
      lastFullRaiseSize := g.cfg.bigBlind;
    }

    method FinalizeHandIfComplete() returns (ran: bool)
      requires Valid()
      modifies this
      ensures Valid() && View() == Idle(g, old(View())) && ran == old(handAwaitingFinalize)
    {
      IdleKeeps(g, View());
      if !handAwaitingFinalize {
        return false;
      }
      handAwaitingFinalize := false;
      FinishHand();
      return true;
    }

    method AssertIdle() returns (error: Option<TableError>)
      requires Valid()
      modifies this
      ensures Valid() && View() == Idle(g, old(View()))
      ensures error == if street.Waiting? then None else Some(HandInProgress)
    {
      var ran := FinalizeHandIfComplete();
      return if street.Waiting? then None else Some(HandInProgress);
    }

    method Sit(playerId: PlayerId, buyIn: nat, seatIndex: Option<int>) returns (r: Result<nat>)
      requires Valid()
      modifies this
      ensures Valid()
      ensures match HandRules.Sit(g, old(View()), playerId, buyIn, seatIndex)
              case Ok(next) => r.Ok? && View() == next && FindSeat(seats, playerId) == Some(r.value)
              case Err(e) => r == Err(e) && View() == Idle(g, old(View()))
    {
      hide HandInv, PaidInv, IdleInv, MapSeats;
      ghost var before := View();
      var busy := AssertIdle();
      if busy.Some? {
        return Err(busy.value);
      }
      if FindSeat(seats, playerId).Some? {
        return Err(AlreadySeated);
      }
      if buyIn < g.cfg.minBuyIn || buyIn > g.cfg.maxBuyIn {
        return Err(BadBuyIn);
      }
      var seat: int := match seatIndex
        case Some(k) => k
        case None => (match FirstEmpty(seats) case None => -1 case Some(k) => k);
      if seat < 0 || seat >= |seats| || seats[seat].Some? {
        return Err(NoEmptySeat);
      }
      seats := seats[seat := Some(NewSeat(playerId, buyIn))];
      SitKeeps(g, before, playerId, buyIn, seatIndex);
      FindUnique(seats, seat);
      return Ok(seat);
    }

    method AddOn(playerId: PlayerId, amount: int) returns (error: Option<TableError>)
      requires Valid()
      modifies this
      ensures Valid()
      ensures match HandRules.AddOn(g, old(View()), playerId, amount)
              case Ok(next) => error == None && View() == next
              case Err(e) => error == Some(e) && View() == Idle(g, old(View()))
    {
      hide Idle, HandInv, PaidInv, IdleInv, FindSeat;
      ghost var before := View();
      var busy := AssertIdle();
      if busy.Some? {
        return busy;
      }
      var seat := FindSeat(seats, playerId);
      if seat.None? {
        return Some(NotSeated);
      }
      var p := seats[seat.value].value;
      var next := p.stack + amount;
      if next > g.cfg.maxBuyIn {
        return Some(AddOnTooLarge);
      }
      if amount <= 0 {
        return Some(AddOnNotPositive);
      }
      seats := seats[seat.value := Some(p.(stack := next))];
      AddOnKeeps(g, before, playerId, amount);
      return None;
    }

    /** Cash out: the seat is emptied and its whole stack handed over. */
    method CashOut(playerId: PlayerId) returns (r: Result<nat>)
      requires Valid()
      modifies this
      ensures Valid()
      ensures match HandRules.CashOut(g, old(View()), playerId)
              case Ok(left) => r == Ok(left.1) && View() == left.0
              case Err(e) => r == Err(e) && View() == Idle(g, old(View()))
    {
      hide HandInv, PaidInv, IdleInv, MapSeats;
      ghost var before := View();
      var busy := AssertIdle();
      if busy.Some? {
        return Err(busy.value);
      }
      var seat := FindSeat(seats, playerId);
      if seat.None? {
        return Err(NotSeated);
      }
      var chips := seats[seat.value].value.stack;
      seats := seats[seat.value := None];
      CashOutKeeps(g, before, playerId);
      return Ok(chips);
    }

    // -------------------------------------------------------------- starting a hand

    method ResetHand()
      modifies this`seats
      ensures seats == MapSeats(old(seats), FreshHand)
    {
      for k := 0 to |seats|
        invariant |seats| == |old(seats)|
        invariant forall j :: 0 <= j < k ==> seats[j] == MapSlot(old(seats)[j], FreshHand)
        invariant forall j :: k <= j < |seats| ==> seats[j] == old(seats)[j]
      {
        if seats[k].Some? {
          var s := seats[k].value;
          seats := seats[k := Some(s.(streetCommit := 0, handCommit := 0, folded := s.sittingOut || s.stack <= 0,
                                      allIn := false, hole := [], acted := false))];
        }
      }
    }

    method AdvanceButton()
      requires buttonSeat.Some? ==> buttonSeat.value < |seats|
      modifies this`buttonSeat
      ensures buttonSeat == Some(NextButton(seats, old(buttonSeat)))
    {
      if buttonSeat.None? {
        buttonSeat := Some(FirstTaken(seats));
        return;
      }
      var from := buttonSeat.value;
      for i := 1 to |seats| + 1
        invariant buttonSeat == Some(from) && Scan(seats, from, 1, HandRules.Ready) == Scan(seats, from, i, HandRules.Ready)
      {
        var idx := StepFrom(|seats|, from, i);
        var p := seats[idx];
        if p.Some? && !p.value.sittingOut && p.value.stack > 0 {
          buttonSeat := Some(idx);
          return;
        }
      }
    }

    /** A blind, or as much of it as the player has. */
    method PostBlind(seat: nat, amount: nat)
      requires seat < |seats| && seats[seat].Some?
      modifies this`seats
      ensures seats == Post(old(seats), seat, amount)
    {
      var p := seats[seat].value;
      var put := Min(amount, p.stack);
      var refused := Put(seat, put);
      seats := seats[seat := Some(seats[seat].value.(acted := false))];
    }

    method PostBlinds()
      requires buttonSeat.Some? && buttonSeat.value < |seats| && Live(seats[buttonSeat.value])
      requires |LiveSet(seats)| >= 2 && NobodySitsOut(seats)
      modifies this`seats
      ensures seats == Blinded(g, old(seats), buttonSeat.value)
    {
      BlindSeats(seats, buttonSeat.value);
      NextIs(seats, buttonSeat.value, Live);
      var sb := buttonSeat.value;
      if |LiveList(seats)| != 2 {
        var first := NextLiveSeat(buttonSeat.value);
        sb := first.value;
      }
      LiveListSize(seats);
      NextIs(seats, sb, Live);
      var bb := NextLiveSeat(sb);
      PostBlind(sb, g.cfg.smallBlind);
      PostBlind(bb.value, g.cfg.bigBlind);
    }

    method ListDealOrder() returns (order: seq<nat>)
      requires buttonSeat.Some? && buttonSeat.value < |seats|
      ensures order == DealOrder(seats, buttonSeat.value, 1)
    {
      var start := buttonSeat.value;
      order := [];
      hide DealOrder, StepFrom, NobodySitsOut;
      for i := 1 to |seats| + 1
        invariant order + DealOrder(seats, start, i) == DealOrder(seats, start, 1)
      {
        OrderExtends(seats, start, i, order);
        var idx := StepFrom(|seats|, start, i);
        var p := seats[idx];
        if p.Some? && !p.value.folded {
          order := order + [idx];
        }
      }
      OrderEnd(seats, start);
    }

    /** One card to every seat in the deal order. */
    method DealOneRound(order: seq<nat>)
      requires cursor + |order| <= |deck| && forall i :: 0 <= i < |order| ==> order[i] < |seats| && Live(seats[order[i]])
      modifies this`seats, this`cursor
      ensures seats == DealRound(old(seats), order, deck[old(cursor)..]) && cursor == old(cursor) + |order|
      ensures forall i :: 0 <= i < |order| ==> Live(seats[order[i]])
    {
      ghost var start := cursor;
      for k := 0 to |order|
        invariant cursor == start + k && |seats| == |old(seats)|
        invariant forall i :: 0 <= i < |order| ==> Live(seats[order[i]])
        invariant DealRound(seats, order[k..], deck[cursor..]) == DealRound(old(seats), order, deck[start..])
      {
        var seat := order[k];
        var p := seats[seat].value;
        assert order[k..][0] == seat && order[k..][1..] == order[k + 1..];
        assert deck[cursor..][0] == deck[cursor] && deck[cursor..][1..] == deck[cursor + 1..];
        if !p.folded {
          var c := Take();
          seats := seats[seat := Some(p.(hole := p.hole + [c.value]))];
        }
      }
      assert order[|order|..] == [];
    }

    method DealHoleCards(order: seq<nat>)
      requires cursor == 0 && 2 * |order| <= |deck| && forall i :: 0 <= i < |order| ==> order[i] < |seats| && Live(seats[order[i]])
      modifies this`seats, this`cursor
      ensures seats == DealHoles(old(seats), order, deck) && cursor == 2 * |order|
    {
      DealOneRound(order);
      assert deck[0..] == deck;
      DealOneRound(order);
    }

    method FirstToActPreflop() returns (r: Option<nat>)
      requires buttonSeat.Some? && buttonSeat.value < |seats| && Live(seats[buttonSeat.value])
      requires |LiveSet(seats)| >= 2 && NobodySitsOut(seats)
      ensures r == Next(seats, BigBlindSeat(seats, buttonSeat.value), Live) && r.Some?
    {
      BlindSeats(seats, buttonSeat.value);
      LiveListSize(seats);
      NextIs(seats, buttonSeat.value, Live);
      NextIs(seats, BigBlindSeat(seats, buttonSeat.value), Live);
      if |LiveList(seats)| == 2 {
        HeadsUpFirst(seats, buttonSeat.value);
        return buttonSeat;
      }
      var sb := NextLiveSeat(buttonSeat.value);
      NextIs(seats, sb.value, Live);
      var bb := NextLiveSeat(sb.value);
      r := NextLiveSeat(bb.value);
    }

    /** Blinds and hole cards. */
    method PostAndDeal()
      requires buttonSeat.Some? && buttonSeat.value < |seats| && Live(seats[buttonSeat.value])
      requires |LiveSet(seats)| >= 2 && NobodySitsOut(seats) && cursor == 0 && 2 * |seats| <= |deck|
      modifies this`seats, this`cursor
      ensures var blinded := Blinded(g, old(seats), buttonSeat.value); var order := DealOrder(blinded, buttonSeat.value, 1);
        seats == DealHoles(blinded, order, deck) && cursor == 2 * |order|
    {
      hide Blinded, DealHoles;
      PostBlinds();
      var order := ListDealOrder();
      DealHoleCards(order);
    }

    /** Marks wiped and the button moved. */
    method ResetAndAdvance()
      requires buttonSeat.Some? ==> buttonSeat.value < |seats|
      modifies this`seats, this`buttonSeat
      ensures seats == MapSeats(old(seats), FreshHand) && buttonSeat == Some(NextButton(seats, old(buttonSeat)))
    {
      ResetHand();
      AdvanceButton();
    }

    method ClearBoard()
      modifies this`board, this`burns, this`winners, this`flopSeen
      ensures board == [] && burns == [] && winners == [] && !flopSeen
    {
      board, burns, winners, flopSeen := [], [], [], false;
    }

    method OpenDeck(newDeck: seq<Card>)
      modifies this`deck, this`cursor, this`rake
      ensures deck == newDeck && cursor == 0 && rake == 0
    {
      deck, cursor, rake := newDeck, 0, 0;
    }

    /** The next hand's number, an empty board and a new deck. */
    method NewDeal(newDeck: seq<Card>)
      modifies this`handId, this`street, this`board, this`burns, this`winners, this`flopSeen
      modifies this`deck, this`cursor, this`rake
      ensures handId == old(handId) + 1 && street == Dealing
      ensures board == [] && burns == [] && winners == [] && !flopSeen
      ensures deck == newDeck && cursor == 0 && rake == 0
    {
      handId := handId + 1;
      street := Dealing;
      ClearBoard();
      OpenDeck(newDeck);
    }

    method OpenBetting()
      modifies this`currentBet, this`lastFullRaiseSize, this`street
      ensures currentBet == lastFullRaiseSize == g.cfg.bigBlind && street == Preflop
    {
      currentBet := g.cfg.bigBlind;
      lastFullRaiseSize := g.cfg.bigBlind;
      street := Preflop;
    }

    /** The hand as dealt, up to the first actor's turn. */
    method DealHand(newDeck: seq<Card>)
      requires IdleInv(g, View()) && |newDeck| == DECK_SIZE && |ReadySet(seats)| >= 2
      modifies this
      ensures NextButton(MapSeats(old(seats), FreshHand), old(buttonSeat)) < |old(seats)|
      ensures View() == Opened(g, old(View()), newDeck).(toAct := None)
    {
      hide IdleInv, Blinded, DealHoles, DealOrder, NextButton, Next, MapSeats, LiveSet, ReadySet, NobodySitsOut, BigBlindSeat, Live;
      IdleBasics(g, View());
      ResetReady(g, View());
      NewDeal(newDeck);
      ResetAndAdvance();
      PostAndDeal();
      OpenBetting();
      assert toActSeat == None;
    }

    /** Start a hand. Refused, the table is only cleaned up after the last hand. */
    method StartHand(newDeck: seq<Card>) returns (error: Option<TableError>)
      requires Valid() && |newDeck| == DECK_SIZE
      modifies this
      ensures Valid()
      ensures match HandRules.StartHand(g, old(View()), newDeck)
              case Ok(next) => error == None && View() == next
              case Err(e) => error == Some(e) && View() == Idle(g, old(View()))
    {
      hide NextStreet, Opened, Closed, Next, Settled, HandInv, PaidInv, RoundReady, BigBlindSeat;
      ghost var before := View();
      IdleKeeps(g, before);
      var busy := AssertIdle();
      if busy.Some? {
        return busy;
      }
      if |ReadySet(seats)| < 2 {
        return Some(TooFewPlayers);
      }
      ghost var idle := View();
      DealHand(newDeck);
      ghost var dealt := Opened(g, idle, newDeck);
      OpenedReady(g, idle, newDeck);
      toActSeat := FirstToActPreflop();
      ReadyAnyTurn(g, dealt, 0, toActSeat);
      TurnIgnored(g, dealt, toActSeat);
      SkipAllInsAndMaybeClose(0, BigBlindSeat(seats, buttonSeat.value));
      StartKeeps(g, before, newDeck);
      return None;
    }
  }

  /** A new table, or an error for a number of seats the program does not accept. */
  method CreateTable(tableId: TableId, g: Game) returns (error: Option<TableError>, t: Table?)
    requires GoodStakes(g.cfg)
    ensures error == if 2 <= g.cfg.seats <= 9 then None else Some(BadSeatCount)
    ensures error.None? ==> t != null && fresh(t) && t.Valid() && t.tableId == tableId && t.g == g && t.View() == NewTable(g)
    ensures error.Some? ==> t == null
  {
    if g.cfg.seats < 2 || g.cfg.seats > 9 {
      return Some(BadSeatCount), null;
    }
    t := new Table(tableId, g);
    return None, t;
  }

  // ---------------------------------------------------------------- many tables

  ghost function Rooms(ts: seq<Table>): (rooms: seq<Room>)
    reads ts
    ensures |rooms| == |ts| && forall i :: 0 <= i < |ts| ==> rooms[i] == ts[i].AsRoom()
  {
    if ts == [] then []
    else
      var last := ts[|ts| - 1];
      Rooms(ts[..|ts| - 1]) + [last.AsRoom()]
  }

  lemma MoreTables(ts: seq<Table>, t: Table)
    requires Distinct(ts) && t !in ts
    ensures Distinct(ts + [t]) && Rooms(ts + [t]) == Rooms(ts) + [t.AsRoom()]
  {
  }

  /** If only one table has changed, the rooms are as before but for that one. */
  lemma OneTable(ts: seq<Table>, i: nat, before: seq<Room>)
    requires i < |ts| == |before| && forall j :: 0 <= j < |ts| && j != i ==> before[j] == ts[j].AsRoom()
    ensures Rooms(ts) == before[i := ts[i].AsRoom()]
  {
  }
}
