/** Starting a hand: the deal and the blinds establish the invariant, with every card at a fixed deck position. */
module HandStart {
  import opened Common
  import opened Cards
  import opened Seats
  import opened Betting
  import opened HandRules
  import opened HandInvariant
  import opened HandRuns

  /** A table between hands. */
  ghost predicate IdleInv(g: Game, st: State) {
    && GoodConfig(g.cfg) && st.street.Waiting? && !st.awaiting && st.toAct.None? && |st.seats| == g.cfg.seats
    && (st.button.Some? ==> st.button.value < |st.seats|)
    && DistinctPlayers(st.seats) && NobodySitsOut(st.seats)
    && (st.button.None? ==> forall i: nat :: i < |st.seats| && st.seats[i].Some? ==> st.seats[i].value.stack > 0)
  }

  // ---------------------------------------------------------------- button and blinds

  lemma TwoMembers(s: set<nat>, i: nat) returns (j: nat)
    requires |s| >= 2
    ensures j in s && j != i
  {
    if s <= {i} {
      SubsetSize(s, {i});
    }
    j :| j in s && j != i;
  }

  /** The button is always a player dealt into the hand. */
  lemma ButtonLive(g: Game, st: State)
    requires IdleInv(g, st) && |ReadySet(st.seats)| >= 2
    ensures var reset := MapSeats(st.seats, FreshHand); var b := NextButton(reset, st.button);
      b < |reset| && Live(reset[b]) && |LiveSet(reset)| >= 2
  {
    var reset := MapSeats(st.seats, FreshHand);
    FreshReady(st.seats);
    var i :| i in ReadySet(reset);
    ButtonInRange(reset, st.button);
    var b := NextButton(reset, st.button);
    match st.button
    case None => FirstTakenIs(reset, i);
    case Some(last) => NextIs(reset, last, Ready);
  }

  /** The blinds are posted by two different live players. */
  lemma BlindSeats(seats: seq<Slot>, button: nat)
    requires button < |seats| && Live(seats[button]) && |LiveSet(seats)| >= 2
    ensures var sb := SmallBlindSeat(seats, button); var bb := BigBlindSeat(seats, button);
      Live(seats[sb]) && Live(seats[bb]) && sb != bb
  {
    NextIs(seats, button, Live);
    var sb := SmallBlindSeat(seats, button);
    NextIs(seats, sb, Live);
    var j := TwoMembers(LiveSet(seats), sb);
    assert Live(seats[j]);
  }

  function BlindOf(g: Game, seats: seq<Slot>, button: nat, i: nat): nat
    requires button < |seats|
  {
    if i == SmallBlindSeat(seats, button) then g.cfg.smallBlind
    else if i == BigBlindSeat(seats, button) then g.cfg.bigBlind else 0
  }

  /** A seat after the blinds and the deal, from the same seat freshly reset. */
  ghost predicate DealtSeat(r: Slot, s: Slot, blind: nat) {
    match r
    case None => s.None?
    case Some(p) =>
      && s.Some?
      && var q := s.value;
      && q.playerId == p.playerId && q.folded == p.folded && q.sittingOut == p.sittingOut && !q.acted
      && q.streetCommit == q.handCommit == Min(blind, p.stack) && q.stack == p.stack - q.handCommit
      && q.allIn == (blind > 0 && q.stack == 0)
  }

  ghost predicate FreshSeat(s: Slot) {
    s.Some? ==>
      var p := s.value;
      && p.streetCommit == 0 && p.handCommit == 0 && !p.allIn && !p.acted && p.hole == []
      && !p.sittingOut && p.folded == (p.stack == 0)
  }

  lemma ResetFresh(g: Game, st: State)
    requires IdleInv(g, st)
    ensures var reset := MapSeats(st.seats, FreshHand);
      && (forall i: nat :: i < |reset| ==> FreshSeat(reset[i]))
      && DistinctPlayers(reset) && NobodySitsOut(reset) && Sum(reset, StackOf) == Sum(st.seats, StackOf)
  {
    var reset := MapSeats(st.seats, FreshHand);
    forall i: nat | i < |reset|
      ensures FreshSeat(reset[i]) && StackOf(reset[i]) == StackOf(st.seats[i]) && SameId(reset[i], st.seats[i])
    {
    }
    SumSame(reset, st.seats, StackOf);
  }

  predicate SameId(a: Slot, b: Slot) {
    a.Some? == b.Some? && (a.Some? ==> a.value.playerId == b.value.playerId)
  }

  lemma BlindedSeat(g: Game, reset: seq<Slot>, button: nat, i: nat)
    requires GoodConfig(g.cfg) && button < |reset| && i < |reset| && FreshSeat(reset[i])
    requires Live(reset[button]) && |LiveSet(reset)| >= 2
    ensures DealtSeat(reset[i], Blinded(g, reset, button)[i], BlindOf(g, reset, button, i))
    ensures Blinded(g, reset, button)[i].Some? ==> Blinded(g, reset, button)[i].value.hole == []
  {
    BlindSeats(reset, button);
  }

  // ---------------------------------------------------------------- the deal

  lemma OrderStep(seats: seq<Slot>, button: nat, k: nat)
    requires button < |seats| && 1 <= k <= |seats|
    ensures var idx := StepFrom(|seats|, button, k); var rest := DealOrder(seats, button, k + 1);
      DealOrder(seats, button, k) == if Live(seats[idx]) then [idx] + rest else rest
  {
  }

  /** Appending the seat at step k, if it is live, and then the later ones. */
  lemma OrderExtends(seats: seq<Slot>, button: nat, k: nat, order: seq<nat>)
    requires button < |seats| && 1 <= k <= |seats|
    ensures var idx := StepFrom(|seats|, button, k);
      order + DealOrder(seats, button, k) == (if Live(seats[idx]) then order + [idx] else order) + DealOrder(seats, button, k + 1)
  {
    hide DealOrder, StepFrom, Live;
    OrderStep(seats, button, k);
  }

  lemma OrderEnd(seats: seq<Slot>, button: nat)
    requires button < |seats|
    ensures DealOrder(seats, button, |seats| + 1) == []
  {
  }

  lemma OrderHas(seats: seq<Slot>, button: nat, k: nat, s: nat)
    requires button < |seats| && 1 <= k <= |seats|
    ensures s in DealOrder(seats, button, k)
      <==> (s == StepFrom(|seats|, button, k) && Live(seats[s])) || s in DealOrder(seats, button, k + 1)
  {
    hide DealOrder, Live, StepFrom;
    OrderStep(seats, button, k);
  }

  lemma GapAt(n: nat, button: nat, k: nat, s: nat)
    requires button < n && 1 <= k <= n && s < n
    ensures Gap(n, button, s) == k <==> s == StepFrom(n, button, k)
  {
    StepGap(n, button, k);
  }

  lemma {:induction false} OrderGap(seats: seq<Slot>, button: nat, k: nat, s: nat)
    requires button < |seats| && 1 <= k <= |seats| + 1 && s < |seats|
    ensures s in DealOrder(seats, button, k) <==> Live(seats[s]) && k <= Gap(|seats|, button, s)
    decreases |seats| + 1 - k
  {
    if k <= |seats| {
      hide DealOrder, Gap, Live, StepFrom;
      OrderHas(seats, button, k, s);
      GapAt(|seats|, button, k, s);
      OrderGap(seats, button, k + 1, s);
    }
  }

  lemma {:induction false} OrderRises(seats: seq<Slot>, button: nat, k: nat, i: nat, j: nat)
    requires button < |seats| && 1 <= k <= |seats| + 1 && i < j < |DealOrder(seats, button, k)|
    ensures Gap(|seats|, button, DealOrder(seats, button, k)[i]) < Gap(|seats|, button, DealOrder(seats, button, k)[j])
    decreases |seats| + 1 - k
  {
    hide Gap, Live, StepFrom;
    var idx := StepFrom(|seats|, button, k);
    var rest := DealOrder(seats, button, k + 1);
    OrderStep(seats, button, k);
    StepGap(|seats|, button, k);
    if !Live(seats[idx]) {
      OrderRises(seats, button, k + 1, i, j);
    } else if i > 0 {
      OrderRises(seats, button, k + 1, i - 1, j - 1);
    } else {
      assert rest[j - 1] in rest;
      OrderGap(seats, button, k + 1, rest[j - 1]);
    }
  }

  /** The deal order lists each live seat once, in clockwise order after the button. */
  lemma DealOrderIs(seats: seq<Slot>, button: nat, k: nat)
    requires button < |seats| && 1 <= k <= |seats| + 1
    ensures var order := DealOrder(seats, button, k);
      && (forall i: nat :: i < |order| ==> k <= Gap(|seats|, button, order[i]))
      && (forall i, j :: 0 <= i < j < |order| ==> Gap(|seats|, button, order[i]) < Gap(|seats|, button, order[j]))
      && (forall s: nat :: s < |seats| && Live(seats[s]) && k <= Gap(|seats|, button, s) ==> s in order)
  {
    hide DealOrder, Gap, Live;
    var order := DealOrder(seats, button, k);
    forall s: nat | s < |seats|
      ensures s in order <==> Live(seats[s]) && k <= Gap(|seats|, button, s)
    {
      OrderGap(seats, button, k, s);
    }
    forall i: nat | i < |order|
      ensures k <= Gap(|seats|, button, order[i])
    {
      assert order[i] in order;
    }
    forall i, j | 0 <= i < j < |order|
      ensures Gap(|seats|, button, order[i]) < Gap(|seats|, button, order[j])
    {
      OrderRises(seats, button, k, i, j);
    }
  }

  lemma DealOrderAll(seats: seq<Slot>, button: nat)
    requires button < |seats|
    ensures var order := DealOrder(seats, button, 1);
      && Distinct(order) && |order| == |LiveSet(seats)|
      && forall s: nat :: s < |seats| ==> (s in order <==> Live(seats[s]))
  {
    var order := DealOrder(seats, button, 1);
    DealOrderIs(seats, button, 1);
    DistinctSize(order);
    assert (set i | 0 <= i < |order| :: order[i]) == LiveSet(seats);
  }

  lemma {:induction false} DistinctSize(order: seq<nat>)
    requires Distinct(order)
    ensures |set i | 0 <= i < |order| :: order[i]| == |order|
  {
    if order != [] {
      var rest := order[1..];
      DistinctSize(rest);
      var all := set i | 0 <= i < |order| :: order[i];
      var tail := set i | 0 <= i < |rest| :: rest[i];
      assert all == tail + {order[0]} by {
        forall x | x in all ensures x in tail + {order[0]} {
          var i :| 0 <= i < |order| && order[i] == x;
          assert i > 0 ==> rest[i - 1] == x;
        }
      }
    }
  }

  /** A round of the deal gives the k-th seat in order the k-th card and touches nobody else. */
  lemma {:induction false} DealRoundIs(seats: seq<Slot>, order: seq<nat>, cards: seq<Card>, s: nat)
    requires |order| <= |cards| && (forall i :: 0 <= i < |order| ==> order[i] < |seats|) && Distinct(order) && s < |seats|
    ensures s !in order ==> DealRound(seats, order, cards)[s] == seats[s]
    ensures forall k :: 0 <= k < |order| && order[k] == s ==> DealRound(seats, order, cards)[s] == Dealt(seats[s], cards[k])
    decreases |order|
  {
    if order != [] {
      var next := seats[order[0] := Dealt(seats[order[0]], cards[0])];
      DealRoundIs(next, order[1..], cards[1..], s);
      if s == order[0] {
        assert s !in order[1..];
      }
    }
  }

  /** Hole cards: with m dealt in, the k-th player in deal order holds deck cards k and m + k. */
  lemma HolesAt(seats: seq<Slot>, order: seq<nat>, deck: seq<Card>, s: nat, k: nat)
    requires 2 * |order| <= |deck| && (forall i :: 0 <= i < |order| ==> order[i] < |seats|) && Distinct(order)
    requires k < |order| && order[k] == s && seats[s].Some? && seats[s].value.hole == []
    ensures DealHoles(seats, order, deck)[s] == Some(seats[s].value.(hole := [deck[k], deck[|order| + k]]))
  {
    DealRoundIs(seats, order, deck, s);
    DealRoundIs(DealRound(seats, order, deck), order, deck[|order|..], s);
    assert [] + [deck[k]] + [deck[|order|..][k]] == [deck[k], deck[|order| + k]];
  }

  lemma HolesElsewhere(seats: seq<Slot>, order: seq<nat>, deck: seq<Card>, s: nat)
    requires 2 * |order| <= |deck| && (forall i :: 0 <= i < |order| ==> order[i] < |seats|) && Distinct(order)
    requires s < |seats| && s !in order
    ensures DealHoles(seats, order, deck)[s] == seats[s]
  {
    DealRoundIs(seats, order, deck, s);
    DealRoundIs(DealRound(seats, order, deck), order, deck[|order|..], s);
  }

  lemma DealtKeeps(g: Game, reset: seq<Slot>, button: nat, deck: seq<Card>, i: nat)
    requires GoodConfig(g.cfg) && button < |reset| && |reset| <= 9
    requires |deck| == DECK_SIZE && i < |reset| && FreshSeat(reset[i])
    requires Live(reset[button]) && |LiveSet(reset)| >= 2
    ensures var blinded := Blinded(g, reset, button);
      var s := DealHoles(blinded, DealOrder(blinded, button, 1), deck)[i];
      && DealtSeat(reset[i], s, BlindOf(g, reset, button, i))
      && (s.Some? ==> |s.value.hole| == if Live(s) then 2 else 0)
  {
    var blinded := Blinded(g, reset, button);
    var order := DealOrder(blinded, button, 1);
    BlindedSeat(g, reset, button, i);
    DealOrderAll(blinded, button);
    if i in order {
      var k: nat :| k < |order| && order[k] == i;
      HolesAt(blinded, order, deck, i, k);
    } else {
      HolesElsewhere(blinded, order, deck, i);
    }
  }

  // ---------------------------------------------------------------- the first betting round

  /** After the deal everyone able to act owes, only the blinds are in, and nobody has more than the bet. */
  lemma DealtRound(g: Game, reset: seq<Slot>, seats: seq<Slot>, button: nat)
    requires GoodConfig(g.cfg) && button < |reset| && Live(reset[button]) && |LiveSet(reset)| >= 2
    requires |seats| == |reset| && (forall i: nat :: i < |reset| ==> FreshSeat(reset[i]))
    requires forall i: nat :: i < |reset| ==> DealtSeat(reset[i], seats[i], BlindOf(g, reset, button, i))
    ensures var bet := g.cfg.bigBlind;
      && Sane(seats, bet) && Level(seats, bet, 0) && Covered(seats, bet, 0) && RaiseSize(g.cfg, seats, bet, bet)
      && LiveSet(seats) == LiveSet(reset)
  {
    var bet := g.cfg.bigBlind;
    BlindSeats(reset, button);
    forall i: nat | i < |seats|
      ensures SaneSeat(seats[i], bet) && LevelSeat(seats[i], bet, 0) && Live(seats[i]) == Live(reset[i])
      ensures Partial(seats[i], bet) ==> i == SmallBlindSeat(reset, button)
      ensures seats[i].Some? && seats[i].value.folded ==> seats[i].value.handCommit < bet
    {
      assert DealtSeat(reset[i], seats[i], BlindOf(g, reset, button, i)) && FreshSeat(reset[i]);
    }
    assert OnlyBlinds(seats, bet);
  }

  /** The first to act is the first able player after the big blind, and a blind with its option is last. */
  lemma DealtTurn(g: Game, reset: seq<Slot>, seats: seq<Slot>, button: nat)
    requires GoodConfig(g.cfg) && button < |reset| && Live(reset[button]) && |LiveSet(reset)| >= 2
    requires |seats| == |reset| && (forall i: nat :: i < |reset| ==> FreshSeat(reset[i]))
    requires forall i: nat :: i < |reset| ==> DealtSeat(reset[i], seats[i], BlindOf(g, reset, button, i))
    requires !Closed(seats, g.cfg.bigBlind)
    ensures var t := Next(seats, BigBlindSeat(reset, button), CanAct);
      t.Some? && InTurn(seats, g.cfg.bigBlind, t.value)
  {
    var bet := g.cfg.bigBlind;
    var bb := BigBlindSeat(reset, button);
    var n := |seats|;
    forall i: nat | i < n
      ensures Owes(seats[i], bet) == CanAct(seats[i])
    {
      assert DealtSeat(reset[i], seats[i], BlindOf(g, reset, button, i));
    }
    NextIs(seats, bb, CanAct);
    var t := Next(seats, bb, CanAct).value;
    OptionAtDeal(g, reset, seats, button, t);
  }

  lemma OptionAtDeal(g: Game, reset: seq<Slot>, seats: seq<Slot>, button: nat, t: nat)
    requires GoodConfig(g.cfg) && button < |reset| && Live(reset[button]) && |LiveSet(reset)| >= 2
    requires |seats| == |reset| && (forall i: nat :: i < |reset| ==> FreshSeat(reset[i]))
    requires forall i: nat :: i < |reset| ==> DealtSeat(reset[i], seats[i], BlindOf(g, reset, button, i))
    requires IsNext(seats, BigBlindSeat(reset, button), 1, CanAct, t)
    ensures OptionLast(seats, g.cfg.bigBlind, t)
  {
    var bet := g.cfg.bigBlind;
    var sb := SmallBlindSeat(reset, button);
    var bb := BigBlindSeat(reset, button);
    var n := |seats|;
    BlindSeats(reset, button);
    forall i: nat, j: nat | i < n && j < n && HasOption(seats[i], bet) && Owes(seats[j], bet)
      ensures OptionAfter(seats, bet, t, j)
    {
      assert DealtSeat(reset[i], seats[i], BlindOf(g, reset, button, i)) && FreshSeat(reset[i]);
      assert i == sb || i == bb;
      if i == bb || Gap(n, bb, j) <= Gap(n, bb, i) {
        assert Dist(n, t, j) <= Dist(n, t, i);
      } else if j == bb {
        assert DealtSeat(reset[bb], seats[bb], bet) && FreshSeat(reset[bb]);
        assert HasOption(seats[bb], bet);
      } else {
        SmallBlindLast(reset, button, j);
      }
    }
  }

  /** Going round from the big blind, the small blind is the last live seat before it. */
  lemma SmallBlindLast(seats: seq<Slot>, button: nat, j: nat)
    requires button < |seats| && Live(seats[button]) && |LiveSet(seats)| >= 2
    requires j < |seats| && Live(seats[j]) && j != BigBlindSeat(seats, button)
    ensures var bb := BigBlindSeat(seats, button); Gap(|seats|, bb, j) <= Gap(|seats|, bb, SmallBlindSeat(seats, button))
  {
    var sb := SmallBlindSeat(seats, button);
    BlindSeats(seats, button);
    NextIs(seats, sb, Live);
  }

  // ---------------------------------------------------------------- the start of a hand

  predicate ChipsKept(r: Slot, s: Slot) {
    StackOf(s) + CommitOf(s) == StackOf(r)
  }

  lemma {:induction false} DealtChips(reset: seq<Slot>, seats: seq<Slot>)
    requires |seats| == |reset| && forall i: nat :: i < |reset| ==> ChipsKept(reset[i], seats[i])
    ensures Sum(seats, StackOf) + Sum(seats, CommitOf) == Sum(reset, StackOf)
  {
    if seats != [] {
      assert forall i: nat :: i < |reset[1..]| ==> reset[1..][i] == reset[i + 1] && seats[1..][i] == seats[i + 1];
      DealtChips(reset[1..], seats[1..]);
      assert ChipsKept(reset[0], seats[0]);
    }
  }

  lemma OpenedSeats(g: Game, st: State, deck: seq<Card>)
    requires IdleInv(g, st) && |deck| == DECK_SIZE && |ReadySet(st.seats)| >= 2
    requires NextButton(MapSeats(st.seats, FreshHand), st.button) < |st.seats|
    ensures var reset := MapSeats(st.seats, FreshHand); var b := NextButton(reset, st.button); var seats := Opened(g, st, deck).seats;
      && (forall i: nat :: i < |reset| ==> FreshSeat(reset[i]) && DealtSeat(reset[i], seats[i], BlindOf(g, reset, b, i)))
      && (forall i: nat :: i < |reset| && seats[i].Some? ==> |seats[i].value.hole| == if Live(seats[i]) then 2 else 0)
  {
    var reset := MapSeats(st.seats, FreshHand);
    var b := NextButton(reset, st.button);
    ButtonLive(g, st);
    ResetFresh(g, st);
    forall i: nat | i < |reset|
      ensures var s := Opened(g, st, deck).seats[i];
        DealtSeat(reset[i], s, BlindOf(g, reset, b, i)) && (s.Some? ==> |s.value.hole| == if Live(s) then 2 else 0)
    {
      DealtKeeps(g, reset, b, deck, i);
    }
  }

  lemma BlindedLive(g: Game, reset: seq<Slot>, button: nat)
    requires GoodConfig(g.cfg) && button < |reset| && Live(reset[button]) && |LiveSet(reset)| >= 2
    requires forall i: nat :: i < |reset| ==> FreshSeat(reset[i])
    ensures |DealOrder(Blinded(g, reset, button), button, 1)| == |LiveSet(reset)|
  {
    var blinded := Blinded(g, reset, button);
    forall i: nat | i < |reset|
      ensures Live(blinded[i]) == Live(reset[i])
    {
      BlindedSeat(g, reset, button, i);
    }
    assert LiveSet(blinded) == LiveSet(reset);
    DealOrderAll(blinded, button);
  }

  lemma OpenedSets(g: Game, st: State, deck: seq<Card>)
    requires IdleInv(g, st) && |deck| == DECK_SIZE && |ReadySet(st.seats)| >= 2
    requires NextButton(MapSeats(st.seats, FreshHand), st.button) < |st.seats|
    ensures var dealt := Opened(g, st, deck);
      LiveSet(dealt.seats) == DealtIn(dealt.seats) == LiveSet(MapSeats(st.seats, FreshHand)) && HolesDealt(dealt.seats)
  {
    hide Opened, NextButton, MapSeats;
    var reset := MapSeats(st.seats, FreshHand);
    var b := NextButton(reset, st.button);
    var seats := Opened(g, st, deck).seats;
    OpenedSeats(g, st, deck);
    forall i: nat | i < |reset|
      ensures Live(seats[i]) == Live(reset[i])
    {
      assert DealtSeat(reset[i], seats[i], BlindOf(g, reset, b, i));
    }
    assert LiveSet(seats) == LiveSet(reset);
    assert DealtIn(seats) == LiveSet(seats);
  }

  /** Every player dealt in holds two cards, nobody else any, and the cursor stands after the hole cards. */
  lemma OpenedCards(g: Game, st: State, deck: seq<Card>)
    requires IdleInv(g, st) && |deck| == DECK_SIZE && |ReadySet(st.seats)| >= 2
    requires NextButton(MapSeats(st.seats, FreshHand), st.button) < |st.seats|
    ensures var dealt := Opened(g, st, deck);
      && LiveSet(dealt.seats) == DealtIn(dealt.seats) == LiveSet(MapSeats(st.seats, FreshHand))
      && HolesDealt(dealt.seats) && CardsAt(dealt, |DealtIn(dealt.seats)|, Preflop)
  {
    hide HolesDealt, LiveSet, DealtIn, NextButton, DealHoles, Blinded, DealOrder, FreshSeat;
    var reset := MapSeats(st.seats, FreshHand);
    var b := NextButton(reset, st.button);
    ButtonLive(g, st);
    ResetFresh(g, st);
    OpenedSets(g, st, deck);
    BlindedLive(g, reset, b);
    LiveSetSize(reset);
  }

  lemma LiveSetSize(seats: seq<Slot>)
    ensures |LiveSet(seats)| <= |seats|
  {
    IndexSetSize(LiveSet(seats), |seats|);
  }

  /** The hand as dealt meets the betting invariant. */
  lemma OpenedSettled(g: Game, st: State, deck: seq<Card>)
    requires IdleInv(g, st) && |deck| == DECK_SIZE && |ReadySet(st.seats)| >= 2
    requires NextButton(MapSeats(st.seats, FreshHand), st.button) < |st.seats|
    ensures Settled(g, Opened(g, st, deck), 0) && |LiveSet(Opened(g, st, deck).seats)| >= 2
  {
    var reset := MapSeats(st.seats, FreshHand);
    var b := NextButton(reset, st.button);
    ButtonLive(g, st);
    ResetFresh(g, st);
    OpenedSeats(g, st, deck);
    OpenedCards(g, st, deck);
    DealtRound(g, reset, Opened(g, st, deck).seats, b);
    DealtFaces(g, reset, Opened(g, st, deck).seats, b);
  }

  lemma OpenedChips(g: Game, st: State, deck: seq<Card>)
    requires IdleInv(g, st) && |deck| == DECK_SIZE && |ReadySet(st.seats)| >= 2
    requires NextButton(MapSeats(st.seats, FreshHand), st.button) < |st.seats|
    ensures Chips(Opened(g, st, deck)) == Sum(st.seats, StackOf)
  {
    var reset := MapSeats(st.seats, FreshHand);
    var seats := Opened(g, st, deck).seats;
    ResetFresh(g, st);
    OpenedSeats(g, st, deck);
    forall i: nat | i < |reset|
      ensures ChipsKept(reset[i], seats[i])
    {
      assert DealtSeat(reset[i], seats[i], BlindOf(g, reset, NextButton(reset, st.button), i));
    }
    DealtChips(reset, seats);
  }

  lemma DealtFaces(g: Game, reset: seq<Slot>, seats: seq<Slot>, button: nat)
    requires button < |reset| && |seats| == |reset| && DistinctPlayers(reset) && NobodySitsOut(reset)
    requires forall i: nat :: i < |reset| ==> DealtSeat(reset[i], seats[i], BlindOf(g, reset, button, i))
    ensures DistinctPlayers(seats) && NobodySitsOut(seats)
  {
  }

  /** A hand starts in good order: it waits for an action or is already paid out, and every chip is accounted for. */
  lemma StartHandSafe(g: Game, st: State, deck: seq<Card>)
    requires IdleInv(g, st) && |deck| == DECK_SIZE && StartHand(g, st, deck).Ok?
    ensures var next := StartHand(g, st, deck).value;
      HandOrPaid(g, next) && Chips(next) == Sum(st.seats, StackOf) && next.deck == deck
  {
    FreshReady(st.seats);
    ButtonInRange(MapSeats(st.seats, FreshHand), st.button);
    var dealt := Opened(g, st, deck);
    OpenedSettled(g, st, deck);
    OpenedChips(g, st, deck);
    if Closed(dealt.seats, dealt.currentBet) {
      CloseEnds(g, dealt, 0);
    } else {
      OpenedTurn(g, st, deck);
    }
  }

  lemma OpenedTurn(g: Game, st: State, deck: seq<Card>)
    requires IdleInv(g, st) && |deck| == DECK_SIZE && |ReadySet(st.seats)| >= 2
    requires NextButton(MapSeats(st.seats, FreshHand), st.button) < |st.seats|
    requires !Closed(Opened(g, st, deck).seats, g.cfg.bigBlind)
    ensures HandInv(g, Opened(g, st, deck))
  {
    var reset := MapSeats(st.seats, FreshHand);
    var dealt := Opened(g, st, deck);
    ButtonLive(g, st);
    OpenedSeats(g, st, deck);
    OpenedSettled(g, st, deck);
    DealtTurn(g, reset, dealt.seats, NextButton(reset, st.button));
    BaseIs(g, dealt, 0);
  }

  /** Two players able to act, one of them with something to answer, keep a round open. */
  lemma TwoOpen(seats: seq<Slot>, bet: nat, i: nat, j: nat)
    requires i < j < |seats| && CanAct(seats[i]) && CanAct(seats[j])
    requires Owes(seats[i], bet) || Owes(seats[j], bet)
    ensures |LiveSet(seats)| >= 2 && !Closed(seats, bet)
  {
    assert {i, j} <= LiveSet(seats) && {i, j} <= ActorSet(seats) && |{i, j}| == 2;
    SubsetSize({i, j}, LiveSet(seats));
    SubsetSize({i, j}, ActorSet(seats));
  }

  /** With two players who have more than the big blind, a hand is dealt and waits for an action. */
  lemma StartsBetting(g: Game, st: State, deck: seq<Card>, i: nat, j: nat)
    requires IdleInv(g, st) && |deck| == DECK_SIZE && i < j < |st.seats| && Ready(st.seats[i]) && Ready(st.seats[j])
    requires st.seats[i].value.stack > g.cfg.bigBlind && st.seats[j].value.stack > g.cfg.bigBlind
    ensures StartHand(g, st, deck).Ok? && HandInv(g, StartHand(g, st, deck).value)
  {
    hide Opened, Settled, InTurn, Closed, NextStreet, NextButton, ReadySet, Next, Ready;
    TwoReady(st.seats, i, j);
    var reset := MapSeats(st.seats, FreshHand);
    FreshReady(st.seats);
    ButtonInRange(reset, st.button);
    OpenedSeats(g, st, deck);
    var seats := Opened(g, st, deck).seats;
    DealtIsOpen(g, st, deck, i);
    DealtIsOpen(g, st, deck, j);
    TwoOpen(seats, g.cfg.bigBlind, i, j);
    OpenedTurn(g, st, deck);
  }

  lemma TwoReady(seats: seq<Slot>, i: nat, j: nat)
    requires i < j < |seats| && Ready(seats[i]) && Ready(seats[j])
    ensures |ReadySet(seats)| >= 2
  {
    assert {i, j} <= ReadySet(seats) && |{i, j}| == 2;
    SubsetSize({i, j}, ReadySet(seats));
  }

  lemma DealtIsOpen(g: Game, st: State, deck: seq<Card>, i: nat)
    requires IdleInv(g, st) && |deck| == DECK_SIZE && |ReadySet(st.seats)| >= 2
    requires NextButton(MapSeats(st.seats, FreshHand), st.button) < |st.seats|
    requires i < |st.seats| && Ready(st.seats[i]) && st.seats[i].value.stack > g.cfg.bigBlind
    ensures Opened(g, st, deck).currentBet == g.cfg.bigBlind
    ensures Owes(Opened(g, st, deck).seats[i], g.cfg.bigBlind)
  {
    hide NextButton, ReadySet, DealHoles, DealOrder, Blinded, Next, SmallBlindSeat, BigBlindSeat;
    var reset := MapSeats(st.seats, FreshHand);
    OpenedSeats(g, st, deck);
    assert DealtSeat(reset[i], Opened(g, st, deck).seats[i], BlindOf(g, reset, NextButton(reset, st.button), i));
  }

  /** The order in which the players of the next hand are dealt in. */
  function StartOrder(g: Game, st: State): (order: seq<nat>)
    requires st.button.Some? ==> st.button.value < |st.seats|
    ensures forall i :: 0 <= i < |order| ==> order[i] < |st.seats|
  {
    var reset := MapSeats(st.seats, FreshHand);
    var b := NextButton(reset, st.button);
    if b < |reset| then DealOrder(Blinded(g, reset, b), b, 1) else []
  }

  lemma OpenedHoles(g: Game, st: State, deck: seq<Card>, k: nat)
    requires IdleInv(g, st) && |deck| == DECK_SIZE && |ReadySet(st.seats)| >= 2
    requires NextButton(MapSeats(st.seats, FreshHand), st.button) < |st.seats| && k < |StartOrder(g, st)|
    ensures var order := StartOrder(g, st); var s := Opened(g, st, deck).seats[order[k]];
      s.Some? && |order| + k < |deck| && s.value.hole == [deck[k], deck[|order| + k]]
  {
    var reset := MapSeats(st.seats, FreshHand);
    var b := NextButton(reset, st.button);
    var blinded := Blinded(g, reset, b);
    var order := DealOrder(blinded, b, 1);
    ButtonLive(g, st);
    ResetFresh(g, st);
    BlindedSeat(g, reset, b, order[k]);
    DealOrderAll(blinded, b);
    HolesAt(blinded, order, deck, order[k], k);
  }

  /**
   * Hole cards are fixed by the deal: with m players dealt in, the k-th after the button holds deck cards
   * k and m + k, at the start and after any sequence of moves.
   */
  lemma HolesFixed(g: Game, st: State, deck: seq<Card>, moves: seq<Move>, k: nat)
    requires IdleInv(g, st) && |deck| == DECK_SIZE && StartHand(g, st, deck).Ok?
    requires HandOrPaid(g, StartHand(g, st, deck).value) && k < |StartOrder(g, st)|
    ensures var order := StartOrder(g, st); var end := Run(g, StartHand(g, st, deck).value, moves);
      && |end.seats| == |st.seats| && end.seats[order[k]].Some? && |order| + k < |deck|
      && end.seats[order[k]].value.hole == [deck[k], deck[|order| + k]]
  {
    var start := StartHand(g, st, deck).value;
    FreshReady(st.seats);
    ButtonInRange(MapSeats(st.seats, FreshHand), st.button);
    OpenedHoles(g, st, deck, k);
    StartKeepsDeal(g, st, deck);
    RunSafe(g, start, moves);
    SameDealCompose(Opened(g, st, deck), start, Run(g, start, moves));
    var s := StartOrder(g, st)[k];
    assert SameHole(Opened(g, st, deck).seats[s], Run(g, start, moves).seats[s]);
  }

  lemma StartKeepsDeal(g: Game, st: State, deck: seq<Card>)
    requires IdleInv(g, st) && |deck| == DECK_SIZE && StartHand(g, st, deck).Ok?
    requires NextButton(MapSeats(st.seats, FreshHand), st.button) < |st.seats|
    ensures SameDeal(Opened(g, st, deck), StartHand(g, st, deck).value)
  {
    var dealt := Opened(g, st, deck);
    OpenedSettled(g, st, deck);
    if Closed(dealt.seats, dealt.currentBet) {
      CloseEnds(g, dealt, 0);
    } else {
      SameDealSelf(dealt);
    }
  }

  /**
   * A whole hand, from the deal through any attempted moves: it is waiting for an action or paid out, the chips
   * behind and in the pot, plus the rake once paid, are those the players sat down with, at most the starting
   * potential of actions is accepted, and at most eight cards beyond the hole cards are drawn.
   */
  lemma WholeHand(g: Game, st: State, deck: seq<Card>, moves: seq<Move>)
    requires IdleInv(g, st) && |deck| == DECK_SIZE && StartHand(g, st, deck).Ok?
    ensures HandOrPaid(g, StartHand(g, st, deck).value)
    ensures var start := StartHand(g, st, deck).value; var end := Run(g, start, moves);
      && HandOrPaid(g, end) && end.deck == deck
      && Chips(end) == Sum(st.seats, StackOf)
      && Accepted(g, start, moves) <= Potential(start)
      && end.cursor <= 2 * |DealtIn(start.seats)| + 8
  {
    hide HandOrPaid, Potential, StartHand;
    StartHandSafe(g, st, deck);
    var start := StartHand(g, st, deck).value;
    RunSafe(g, start, moves);
    RunEnds(g, start, moves);
    BettingCannotMoveCards(g, start, moves, moves);
  }
}
