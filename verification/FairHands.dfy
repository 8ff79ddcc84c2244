/** From the deal to the payout in one statement: what the players of a hand end up with, and why. */
module FairHands {
  import opened Common
  import opened Cards
  import opened Pots
  import opened Seats
  import opened Betting
  import opened HandRules
  import opened ShowdownProofs
  import opened HandInvariant
  import opened HandRuns
  import opened HandStart
  import opened BestOfSeven
  import opened BestHandsWin
  import opened FairPayouts
  import opened Shuffle

  // ---------------------------------------------------------------- what a fair payout is

  /** What a player started the hand with, less what the pot kept of it, plus what the awards pay them. */
  predicate NetSeat(s: Slot, start: Slot, winners: seq<PotShare>) {
    && s.Some? == start.Some?
    && (s.Some? ==>
          && s.value.playerId == start.value.playerId
          && s.value.stack + s.value.handCommit == start.value.stack + Won(winners, s.value.playerId))
  }

  ghost predicate Net(seats: seq<Slot>, start: seq<Slot>, winners: seq<PotShare>) {
    |seats| == |start| && forall i: nat :: i < |seats| ==> NetSeat(seats[i], start[i], winners)
  }

  /** One pot: somebody may win it, and its winners are the eligible players nobody eligible beats. */
  ghost predicate PotFair(g: Game, end: State, pot: Pot) {
    && pot.eligible != []
    && (forall id :: id in pot.eligible ==> FindSeat(end.seats, id).Some?)
    && forall id :: id in pot.eligible ==> (id in PotWinners(g, end.seats, end.board, pot) <==> Unbeaten(end, pot, id))
  }

  /**
   * A showdown: every pot is fair, each keeps its rake and pays its winners the rest, the awards and the rake are what
   * the pots add up to, and nobody wins more than was matched.
   */
  ghost predicate ShowdownFair(g: Game, end: State)
    requires GoodConfig(g.cfg)
  {
    var c := Contribs(end.seats);
    var pots := PotsAbove(c, 0);
    && TotalAmount(pots) == TotalCommitted(c)
    && (forall j :: 0 <= j < |pots| ==> PotFair(g, end, pots[j]))
    && end.winners == AllShares(g, end, pots)
    && (exists kept, paid :: PotsPay(g, end, pots, kept, paid))
    && forall i :: 0 <= i < |c| && !c[i].folded ==> Won(end.winners, c[i].playerId) <= Between(c, 0, c[i].committed)
  }

  /** Everyone else folded: the last player alone is paid, the pot less its rake. */
  ghost predicate UncontestedFair(g: Game, end: State)
    requires GoodConfig(g.cfg)
  {
    var pot := TotalCommitted(Contribs(end.seats));
    && end.rake <= pot && Keeps(g.cfg, end.board != [], pot, end.rake)
    && end.winners == [PotShare(FirstLiveId(end.seats), pot - end.rake)]
    && forall i: nat :: i < |end.seats| && Live(end.seats[i]) ==> end.seats[i].value.playerId == FirstLiveId(end.seats)
  }

  ghost predicate Fair(g: Game, start: seq<Slot>, st: State)
    requires GoodConfig(g.cfg)
  {
    if st.street.Payout? then
      && Net(st.seats, start, st.winners)
      && TotalShares(st.winners) + st.rake == TotalCommitted(Contribs(st.seats))
      && |LiveSet(st.seats)| >= 1
      && if |LiveSet(st.seats)| == 1 then UncontestedFair(g, st) else ShowdownFair(g, st)
    else Net(st.seats, start, [])
  }

  // ---------------------------------------------------------------- commitments after the return

  predicate SameCommit(a: Slot, b: Slot) {
    && a.Some? == b.Some?
    && (a.Some? ==> a.value.playerId == b.value.playerId && a.value.handCommit == b.value.handCommit && a.value.folded == b.value.folded)
  }

  lemma {:induction false} SameContribs(a: seq<Slot>, b: seq<Slot>)
    requires |a| == |b| && forall i: nat :: i < |a| ==> SameCommit(a[i], b[i])
    ensures Contribs(a) == Contribs(b)
  {
    if a != [] {
      assert SameCommit(a[0], b[0]);
      SameContribs(a[1..], b[1..]);
    }
  }

  lemma {:induction false} CreditsKeepCommits(seats: seq<Slot>, shares: seq<PotShare>, i: nat)
    requires i < |seats|
    ensures SameCommit(CreditAll(seats, shares)[i], seats[i])
    decreases |shares|
  {
    if shares != [] {
      CreditsKeepCommits(Credit(seats, shares[0]), shares[1..], i);
    }
  }

  lemma {:induction false} ContribsUpdate(seats: seq<Slot>, k: nat, p: Seat) returns (j: nat)
    requires k < |seats| && seats[k].Some?
    ensures j < |Contribs(seats)| && Contribs(seats)[j] == ContribOf(seats[k].value)
    ensures Contribs(seats[k := Some(p)]) == Contribs(seats)[j := ContribOf(p)]
  {
    var next := seats[k := Some(p)];
    if k == 0 {
      j := 0;
      assert next[1..] == seats[1..];
    } else {
      assert next[1..] == seats[1..][k - 1 := Some(p)];
      j := ContribsUpdate(seats[1..], k - 1, p);
      if seats[0].Some? {
        j := j + 1;
      }
    }
  }

  /** Giving the uncalled bet back leaves in front of the players exactly what the pots are built from. */
  lemma RefundContribs(seats: seq<Slot>)
    requires DistinctPlayers(seats)
    ensures Contribs(UncommitAll(seats, Refund(Contribs(seats)))) == AfterReturn(Contribs(seats))
  {
    hide DistinctPlayers, Contribs;
    var c := Contribs(seats);
    if Uncalled(c) > 0 {
      var k := RefundSeat(seats);
      var share := PotShare(seats[k].value.playerId, Uncalled(c));
      var p := Uncommit(seats, share)[k].value;
      assert UncommitAll(Uncommit(seats, share), []) == Uncommit(seats, share) == seats[k := Some(p)];
      var j := ContribsUpdate(seats, k, p);
      ContribsDistinct(seats);
      assert c[j].playerId == c[TopIndex(c)].playerId;
    }
  }

  lemma ShowdownContribs(g: Game, st: State)
    requires GoodConfig(g.cfg) && DistinctPlayers(st.seats)
    ensures Contribs(DoShowdown(g, st).seats) == AfterReturn(Contribs(st.seats))
  {
    hide DistinctPlayers, Contribs, Refund, AfterReturn, ShowdownShares;
    var back := UncommitAll(st.seats, Refund(Contribs(st.seats)));
    var end := CreditAll(back, ShowdownShares(g, st));
    RefundContribs(st.seats);
    forall i: nat | i < |end|
      ensures SameCommit(end[i], back[i])
    {
      CreditsKeepCommits(back, ShowdownShares(g, st), i);
    }
    SameContribs(end, back);
  }

  // ---------------------------------------------------------------- stacks

  lemma UncommitNet(seats: seq<Slot>, i: nat)
    requires DistinctPlayers(seats) && i < |seats|
    ensures var back := UncommitAll(seats, Refund(Contribs(seats)));
      && |back| == |seats| && back[i].Some? == seats[i].Some?
      && (seats[i].Some? ==>
            && back[i].value.playerId == seats[i].value.playerId
            && back[i].value.stack + back[i].value.handCommit == seats[i].value.stack + seats[i].value.handCommit)
  {
    hide DistinctPlayers, Contribs, Uncalled;
    var c := Contribs(seats);
    if Uncalled(c) > 0 {
      var k := RefundSeat(seats);
      var share := PotShare(seats[k].value.playerId, Uncalled(c));
      assert UncommitAll(Uncommit(seats, share), []) == Uncommit(seats, share);
    }
  }

  lemma BackDistinct(seats: seq<Slot>)
    requires DistinctPlayers(seats)
    ensures var back := UncommitAll(seats, Refund(Contribs(seats)));
      DistinctPlayers(back) && SameFaces(seats, back)
  {
    RefundIs(seats);
    var back := UncommitAll(seats, Refund(Contribs(seats)));
    assert forall i: nat :: i < |seats| ==> SameFace(seats[i], back[i]);
  }

  lemma ShowdownNet(g: Game, st: State, start: seq<Slot>)
    requires GoodConfig(g.cfg) && DistinctPlayers(st.seats) && Net(st.seats, start, [])
    ensures Net(DoShowdown(g, st).seats, start, DoShowdown(g, st).winners)
  {
    hide DistinctPlayers, Contribs, Refund, SameFaces, ShowdownShares, Seated;
    var shares := ShowdownShares(g, st);
    var back := UncommitAll(st.seats, Refund(Contribs(st.seats)));
    BackDistinct(st.seats);
    SharesSeated(g, st, back);
    forall i: nat | i < |start|
      ensures NetSeat(CreditAll(back, shares)[i], start[i], shares)
    {
      UncommitNet(st.seats, i);
      assert NetSeat(st.seats[i], start[i], []);
      CreditsKeepCommits(back, shares, i);
      if back[i].Some? {
        CreditAllPays(back, shares, i);
      }
    }
  }

  lemma UncontestedNet(g: Game, st: State, start: seq<Slot>, winner: PlayerId)
    requires GoodConfig(g.cfg) && DistinctPlayers(st.seats) && Net(st.seats, start, [])
    ensures var end := AwardUncontested(g, st, winner); Net(end.seats, start, end.winners)
  {
    hide DistinctPlayers, Contribs, Refund, SameFaces;
    var end := AwardUncontested(g, st, winner);
    var back := UncommitAll(st.seats, Refund(Contribs(st.seats)));
    var share := end.winners[0];
    BackDistinct(st.seats);
    forall i: nat | i < |start|
      ensures NetSeat(end.seats[i], start[i], [share])
    {
      UncommitNet(st.seats, i);
      assert NetSeat(st.seats[i], start[i], []);
      OneShare(share, if back[i].Some? then back[i].value.playerId else 0);
      if back[i].Some? {
        CreditPays(back, share, i);
      }
    }
  }

  lemma OneShare(share: PotShare, id: PlayerId)
    ensures Won([share], id) == if share.playerId == id then share.amount else 0
  {
    assert [share][1..] == [];
  }

  // ---------------------------------------------------------------- the showdown seen from its end

  lemma SameShares(g: Game, a: State, b: State, pots: seq<Pot>)
    requires GoodConfig(g.cfg) && SameFaces(a.seats, b.seats) && a.board == b.board && a.flopSeen == b.flopSeen
    ensures AllShares(g, a, pots) == AllShares(g, b, pots)
  {
    hide SameFaces, HandValue;
    if pots != [] {
      SameValues(g, a.seats, b.seats, a.board, pots[0].eligible);
      SameShares(g, a, b, pots[1..]);
    }
  }

  lemma SameSeven(a: seq<Slot>, b: seq<Slot>, board: seq<Card>, id: PlayerId)
    requires SameFaces(a, b) && FindSeat(a, id).Some?
    ensures FindSeat(b, id).Some? && Seven(a, board, id) == Seven(b, board, id)
  {
    FindSame(a, b, id);
    assert SameFace(a[FindSeat(a, id).value], b[FindSeat(a, id).value]);
  }

  lemma PotFairAtClose(g: Game, st: State, base: nat, j: nat)
    requires g.value == HoldemValue && Settled(g, st, base) && DealtFromDeck(st) && Distinct(st.deck)
    requires j < |ShowdownPots(RunOut(st))| && ShowdownPots(RunOut(st))[j].eligible != []
    ensures PotFair(g, RunOut(st), ShowdownPots(RunOut(st))[j])
  {
    hide ShowdownPots, RunOut, Settled, HandValue, DealtFromDeck, Distinct, Unbeaten, PotWinners;
    SettledCards(g, st, base);
    forall id | id in ShowdownPots(RunOut(st))[j].eligible
      ensures FindSeat(RunOut(st).seats, id).Some?
    {
      PotGoesToBestHands(g, st, base, j, id);
    }
    forall id | id in ShowdownPots(RunOut(st))[j].eligible
      ensures id in PotWinners(g, RunOut(st).seats, RunOut(st).board, ShowdownPots(RunOut(st))[j])
          <==> Unbeaten(RunOut(st), ShowdownPots(RunOut(st))[j], id)
    {
      PotGoesToBestHands(g, st, base, j, id);
    }
  }

  /** Paying out changes nobody's cards, so a pot stays as fair as it was. */
  lemma PotFairAtEnd(g: Game, a: State, b: State, pot: Pot)
    requires PotFair(g, a, pot) && SameFaces(a.seats, b.seats) && a.board == b.board
    ensures PotFair(g, b, pot)
  {
    hide SameFaces, HandValue, Seven, Outclassed;
    SameValues(g, a.seats, b.seats, a.board, pot.eligible);
    forall id | id in pot.eligible
      ensures FindSeat(b.seats, id).Some? && Seven(a.seats, a.board, id) == Seven(b.seats, b.board, id)
    {
      SameSeven(a.seats, b.seats, a.board, id);
    }
    assert PotWinners(g, a.seats, a.board, pot) == PotWinners(g, b.seats, b.board, pot);
    forall id | id in pot.eligible
      ensures Unbeaten(a, pot, id) <==> Unbeaten(b, pot, id)
    {
    }
  }

  ghost predicate AllFair(g: Game, st: State, pots: seq<Pot>) {
    forall j :: 0 <= j < |pots| ==> PotFair(g, st, pots[j])
  }

  lemma ClosedFair(g: Game, st: State, base: nat)
    requires g.value == HoldemValue && Settled(g, st, base) && DealtFromDeck(st) && Distinct(st.deck)
    requires AllOwned(ShowdownPots(RunOut(st)))
    ensures AllFair(g, RunOut(st), ShowdownPots(RunOut(st)))
  {
    hide ShowdownPots, RunOut, Settled, DealtFromDeck, Distinct, PotFair;
    SettledCards(g, st, base);
    forall j | 0 <= j < |ShowdownPots(RunOut(st))|
      ensures PotFair(g, RunOut(st), ShowdownPots(RunOut(st))[j])
    {
      PotFairAtClose(g, st, base, j);
    }
  }

  lemma AllFairAtEnd(g: Game, a: State, b: State, pots: seq<Pot>)
    requires AllFair(g, a, pots) && SameFaces(a.seats, b.seats) && a.board == b.board
    ensures AllFair(g, b, pots)
  {
    hide PotFair, SameFaces;
    forall j | 0 <= j < |pots|
      ensures PotFair(g, b, pots[j])
    {
      PotFairAtEnd(g, a, b, pots[j]);
    }
  }

  lemma WinnersSeated(g: Game, end: State, j: nat)
    requires DistinctPlayers(end.seats) && j < |PotsAbove(Contribs(end.seats), 0)|
    ensures InSeatOrder(end.seats, PotWinners(g, end.seats, end.board, PotsAbove(Contribs(end.seats), 0)[j]))
  {
    hide DistinctPlayers, Contribs, PotsAbove, HandValue, EligibleAbove, InSeatOrder;
    var c := Contribs(end.seats);
    var pot := PotsAbove(c, 0)[j];
    PotAt(c, 0, j);
    ContribsInOrder(end.seats);
    EligibleInOrder(end.seats, c, FloorOf(c, 0, j));
    WinnersInOrder(g, end.seats, end.board, pot.eligible, BestValue(g, end.seats, end.board, pot.eligible));
  }

  lemma WinnersUnbeaten(g: Game, end: State, pot: Pot)
    requires PotFair(g, end, pot)
    ensures pot.eligible != [] && PotWinners(g, end.seats, end.board, pot) != []
    ensures forall id :: id in pot.eligible ==> FindSeat(end.seats, id).Some?
    ensures forall id :: id in PotWinners(g, end.seats, end.board, pot) <==> id in pot.eligible && Unbeaten(end, pot, id)
  {
    hide Unbeaten, HandValue, PotWinners, FindSeat;
    WinnersAreBest(g, end, pot);
  }

  /** A fair pot keeps the rake of its amount and pays the rest evenly, in seat order. */
  lemma PotFairPays(g: Game, end: State, j: nat)
    requires GoodConfig(g.cfg) && DistinctPlayers(end.seats) && (end.flopSeen <==> end.board != [])
    requires j < |PotsAbove(Contribs(end.seats), 0)| && PotFair(g, end, PotsAbove(Contribs(end.seats), 0)[j])
    ensures var pot := PotsAbove(Contribs(end.seats), 0)[j];
      PotFairlyPaid(g, end, pot, PotRake(g, end.flopSeen, pot), PotShares(g, end, pot))
  {
    hide DistinctPlayers, Contribs, PotsAbove, Unbeaten, PotWinners, RakeOn, InSeatOrder, Keeps, PotPays, PotFair, SplitPot;
    var pot := PotsAbove(Contribs(end.seats), 0)[j];
    WinnersSeated(g, end, j);
    WinnersUnbeaten(g, end, pot);
    RakeIsKept(g, end.flopSeen, pot.amount);
    SplitPays(end, pot, RakeOn(g, end.flopSeen, pot.amount), PotWinners(g, end.seats, end.board, pot));
  }

  lemma PotsFairlyPaid(g: Game, end: State)
    requires GoodConfig(g.cfg) && DistinctPlayers(end.seats) && (end.flopSeen <==> end.board != [])
    requires var pots := PotsAbove(Contribs(end.seats), 0);
      && AllFair(g, end, pots) && end.winners == AllShares(g, end, pots) && end.rake == TotalRake(g, end.flopSeen, pots)
    ensures var pots := PotsAbove(Contribs(end.seats), 0);
      && (exists kept, paid :: PotsPay(g, end, pots, kept, paid))
      && TotalShares(end.winners) + end.rake == TotalAmount(pots)
  {
    hide DistinctPlayers, Contribs, PotsAbove, PotFair, PotFairlyPaid, PotRake, PotShares, AllShares, TotalRake;
    var pots := PotsAbove(Contribs(end.seats), 0);
    var kept, paid := KeptList(g, end.flopSeen, pots), PaidList(g, end, pots);
    ListsAddUp(g, end, pots);
    forall j | 0 <= j < |pots|
      ensures PotFairlyPaid(g, end, pots[j], kept[j], paid[j]) && pots[j].eligible != []
    {
      PotFairPays(g, end, j);
      FairIsOwned(g, end, pots[j]);
    }
    assert PotsPay(g, end, pots, kept, paid);
    AllPaid(g, end, pots);
  }

  lemma FairIsOwned(g: Game, end: State, pot: Pot)
    requires PotFair(g, end, pot)
    ensures pot.eligible != []
  {
  }

  /** What is fair when betting closes is fair, seen from the payout. */
  lemma ShowdownIsFair(g: Game, mid: State)
    requires GoodConfig(g.cfg) && DistinctPlayers(mid.seats) && AllOwned(ShowdownPots(mid)) && AllFair(g, mid, ShowdownPots(mid))
    requires SameFaces(mid.seats, DoShowdown(g, mid).seats) && mid.flopSeen && mid.board != []
    ensures var end := DoShowdown(g, mid);
      ShowdownFair(g, end) && TotalShares(end.winners) + end.rake == TotalCommitted(Contribs(end.seats))
  {
    var end := DoShowdown(g, mid);
    var c := Contribs(end.seats);
    ShowdownContribs(g, mid);
    assert PotsAbove(c, 0) == ShowdownPots(mid);
    assert end.board == mid.board && end.flopSeen == mid.flopSeen && end.winners == AllShares(g, mid, ShowdownPots(mid));
    assert end.rake == TotalRake(g, end.flopSeen, ShowdownPots(mid));
    SameFacesDistinct(mid.seats, end.seats);
    hide DoShowdown, AllShares, Contribs, SameFaces, PotFair, AllOwned, DistinctPlayers, ShowdownPots, TotalRake, PotsPay;
    PotsTotal(c);
    SameShares(g, mid, end, ShowdownPots(mid));
    AllFairAtEnd(g, mid, end, ShowdownPots(mid));
    PotsFairlyPaid(g, end);
    AwardsBounded(g, mid);
  }

  lemma SameFacesDistinct(a: seq<Slot>, b: seq<Slot>)
    requires SameFaces(a, b) && DistinctPlayers(a)
    ensures DistinctPlayers(b)
  {
    assert forall i: nat :: i < |a| ==> SameFace(a[i], b[i]);
  }

  lemma ClosedStands(g: Game, st: State, base: nat)
    requires Settled(g, st, base) && Closed(st.seats, st.currentBet) && |LiveSet(st.seats)| >= 2
    requires st.currentBet == 0 ==> ActorSet(st.seats) != {}
    ensures forall j, k :: Stands(st.seats, j) && Stands(st.seats, k) ==> j == k
  {
    hide Closed, Covered, Level, Sane;
    CloseCovers(st.seats, st.currentBet, base);
  }

  lemma SameLive(a: seq<Slot>, b: seq<Slot>)
    requires SameFaces(a, b)
    ensures LiveSet(a) == LiveSet(b)
  {
    assert forall i: nat :: i < |a| ==> SameFace(a[i], b[i]);
  }

  lemma AwardsBounded(g: Game, st: State)
    requires GoodConfig(g.cfg) && DistinctPlayers(st.seats) && AllOwned(ShowdownPots(st))
    ensures var c := AfterReturn(Contribs(st.seats));
      forall i :: 0 <= i < |c| && !c[i].folded ==> Won(ShowdownShares(g, st), c[i].playerId) <= Between(c, 0, c[i].committed)
  {
    var c := AfterReturn(Contribs(st.seats));
    forall i | 0 <= i < |c| && !c[i].folded
      ensures Won(ShowdownShares(g, st), c[i].playerId) <= Between(c, 0, c[i].committed)
    {
      AwardBound(g, st, i);
    }
  }

  /** Every reachable showdown is fair, and leaves each player what they started with, less the pot's share, plus their awards. */
  lemma CloseShowsDown(g: Game, st: State, base: nat, start: seq<Slot>)
    requires g.value == HoldemValue && Settled(g, st, base) && DealtFromDeck(st) && Distinct(st.deck)
    requires Closed(st.seats, st.currentBet) && |LiveSet(st.seats)| >= 2
    requires st.currentBet == 0 ==> ActorSet(st.seats) != {}
    requires Net(st.seats, start, [])
    ensures Fair(g, start, DoShowdown(g, RunOut(st)))
  {
    hide DealtFromDeck, Distinct, Closed, Net, Contribs, SameFaces, Settled, ShowdownFair, RunOut, AllOwned, AllFair;
    SettledCards(g, st, base);
    SettledConfig(g, st, base);
    var mid := RunOut(st);
    ClosedStands(g, st, base);
    FlopIsOut(g, st, base);
    ShowdownConserves(g, mid);
    ClosedFair(g, st, base);
    ShowdownIsFair(g, mid);
    ShowdownNet(g, mid, start);
    SameLive(mid.seats, DoShowdown(g, mid).seats);
  }

  lemma FlopIsOut(g: Game, st: State, base: nat)
    requires Settled(g, st, base)
    ensures Running(g, st) && RunOut(st).flopSeen && RunOut(st).board != [] && (st.flopSeen <==> st.board != [])
  {
    hide Sane, Level, Covered, RaiseSize, HolesDealt;
    RunOutCards(st, |DealtIn(st.seats)|);
  }

  lemma SettledConfig(g: Game, st: State, base: nat)
    requires Settled(g, st, base)
    ensures GoodConfig(g.cfg) && Running(g, st)
  {
  }

  // ---------------------------------------------------------------- the uncontested ending

  lemma {:induction false} FirstLiveSame(a: seq<Slot>, b: seq<Slot>)
    requires SameFaces(a, b)
    ensures FirstLiveId(a) == FirstLiveId(b)
  {
    if a != [] {
      assert SameFace(a[0], b[0]);
      assert SameFaces(a[1..], b[1..]);
      FirstLiveSame(a[1..], b[1..]);
    }
  }

  lemma UncontestedContribs(g: Game, st: State, winner: PlayerId)
    requires GoodConfig(g.cfg) && DistinctPlayers(st.seats)
    ensures Contribs(AwardUncontested(g, st, winner).seats) == AfterReturn(Contribs(st.seats))
  {
    hide DistinctPlayers, Contribs, Refund, AfterReturn;
    var back := UncommitAll(st.seats, Refund(Contribs(st.seats)));
    var shares := AwardUncontested(g, st, winner).winners;
    var end := CreditAll(back, shares);
    assert CreditAll(Credit(back, shares[0]), []) == Credit(back, shares[0]) && shares[1..] == [];
    RefundContribs(st.seats);
    forall i: nat | i < |end|
      ensures SameCommit(end[i], back[i])
    {
      CreditsKeepCommits(back, shares, i);
    }
    SameContribs(end, back);
  }

  lemma OneLive(seats: seq<Slot>)
    requires |LiveSet(seats)| == 1
    ensures forall i: nat :: i < |seats| && Live(seats[i]) ==> seats[i].value.playerId == FirstLiveId(seats)
  {
    FirstLiveIs(seats);
    var k: nat :| k < |seats| && Live(seats[k]) && FirstLiveId(seats) == seats[k].value.playerId;
    forall i: nat | i < |seats| && Live(seats[i])
      ensures i == k
    {
      assert {i, k} <= LiveSet(seats);
      SubsetSize({i, k}, LiveSet(seats));
    }
  }

  lemma UncontestedIsFair(g: Game, st: State)
    requires GoodConfig(g.cfg) && DistinctPlayers(st.seats) && |LiveSet(st.seats)| == 1
    requires FindSeat(st.seats, FirstLiveId(st.seats)).Some? && (st.flopSeen <==> st.board != [])
    ensures var end := AwardUncontested(g, st, FirstLiveId(st.seats));
      && |LiveSet(end.seats)| == 1 && UncontestedFair(g, end)
      && TotalShares(end.winners) + end.rake == TotalCommitted(Contribs(end.seats))
  {
    hide Contribs, SameFaces, DistinctPlayers, FindSeat, Live, LiveSet, FirstLiveId, RakeOn, Keeps, UncommitAll, Credit, Refund;
    var id := FirstLiveId(st.seats);
    var end := AwardUncontested(g, st, id);
    UncontestedConserves(g, st, id);
    UncontestedContribs(g, st, id);
    SameLive(st.seats, end.seats);
    FirstLiveSame(st.seats, end.seats);
    OneLive(end.seats);
    RakeIsKept(g, st.flopSeen, TotalCommitted(Contribs(end.seats)));
    OneShareTotal(end.winners[0]);
  }

  lemma OneShareTotal(share: PotShare)
    ensures TotalShares([share]) == share.amount
  {
    assert [share][1..] == [];
  }

  /** The last live player is paid the pot less its rake, and nobody else is paid. */
  lemma LastPlayerPaid(g: Game, st: State, base: nat, start: seq<Slot>)
    requires Settled(g, st, base) && |LiveSet(st.seats)| == 1 && Net(st.seats, start, [])
    ensures Fair(g, start, AwardUncontested(g, st, FirstLiveId(st.seats)))
  {
    hide Settled, Net, Contribs, SameFaces, TotalCommitted, DistinctPlayers, UncontestedFair, LiveSet, ShowdownFair;
    SettledCards(g, st, base);
    SettledConfig(g, st, base);
    FlopIsOut(g, st, base);
    LastSeated(st.seats);
    UncontestedNet(g, st, start, FirstLiveId(st.seats));
    UncontestedIsFair(g, st);
  }

  lemma LastSeated(seats: seq<Slot>)
    requires DistinctPlayers(seats) && |LiveSet(seats)| == 1
    ensures FindSeat(seats, FirstLiveId(seats)).Some?
  {
    FirstLiveIs(seats);
    var i: nat :| i < |seats| && Live(seats[i]) && FirstLiveId(seats) == seats[i].value.playerId;
    FindUnique(seats, i);
  }

  // ---------------------------------------------------------------- actions and streets

  lemma ActsNet(seats: seq<Slot>, t: nat, bet: nat, seats': seq<Slot>, bet': nat, start: seq<Slot>)
    requires Acts(seats, t, bet, seats', bet') && Net(seats, start, [])
    ensures Net(seats', start, [])
  {
    forall i: nat | i < |seats'|
      ensures NetSeat(seats'[i], start[i], [])
    {
      assert NetSeat(seats[i], start[i], []);
      assert i != t ==> OtherStep(seats[i], seats'[i], bet, bet');
    }
  }

  lemma FreshNet(seats: seq<Slot>, start: seq<Slot>)
    requires Net(seats, start, [])
    ensures Net(MapSeats(seats, FreshStreet), start, [])
  {
    forall i: nat | i < |seats|
      ensures NetSeat(MapSeats(seats, FreshStreet)[i], start[i], [])
    {
      assert NetSeat(seats[i], start[i], []);
      FreshStreetSeats(seats, i);
    }
  }

  /** A closed round ends in a new street that has paid nothing yet, or in a fair showdown. */
  lemma CloseFair(g: Game, st: State, base: nat, start: seq<Slot>)
    requires g.value == HoldemValue && Settled(g, st, base) && DealtFromDeck(st) && Distinct(st.deck)
    requires Closed(st.seats, st.currentBet) && |LiveSet(st.seats)| >= 2
    requires st.currentBet == 0 ==> ActorSet(st.seats) != {}
    requires Net(st.seats, start, [])
    ensures Fair(g, start, NextStreet(g, st))
  {
    hide Settled, Net, Closed, DealtFromDeck, Distinct, RunOut, DoShowdown, ShowdownFair, UncontestedFair;
    SettledConfig(g, st, base);
    if st.street.River? || IsRunOut(st.seats) {
      CloseShowsDown(g, st, base, start);
    } else {
      FreshNet(st.seats, start);
    }
  }

  lemma AdvanceFair(g: Game, st: State, mid: State, start: seq<Slot>)
    requires g.value == HoldemValue && HandInv(g, st) && Settled(g, mid, Base(st)) && mid.toAct == st.toAct
    requires Acts(st.seats, st.toAct.value, st.currentBet, mid.seats, mid.currentBet)
    requires DealtFromDeck(mid) && Distinct(mid.deck) && Net(mid.seats, start, [])
    ensures Fair(g, start, Advance(g, mid, st.toAct.value))
  {
    hide Net, Closed, DealtFromDeck, Distinct, AwardUncontested, NextStreet, ShowdownFair, UncontestedFair, Covered, Level, Prefix, OptionLast;
    var t := st.toAct.value;
    LiveRemain(st.seats, t, st.currentBet, mid.seats, mid.currentBet);
    if |LiveSet(mid.seats)| == 1 {
      LastPlayerPaid(g, mid, Base(st), start);
    } else if Closed(mid.seats, mid.currentBet) {
      if mid.currentBet == 0 {
        ActorsRemain(st.seats, t, st.currentBet, mid.seats, mid.currentBet);
      }
      CloseFair(g, mid, Base(st), start);
    }
  }

  /** Every accepted action of a fair hand leaves it fair. */
  lemma ActFair(g: Game, st: State, id: PlayerId, action: PlayerAction, start: seq<Slot>)
    requires g.value == HoldemValue && HandInv(g, st) && Act(g, st, id, action).Ok?
    requires DealtFromDeck(st) && Distinct(st.deck) && Net(st.seats, start, [])
    ensures Fair(g, start, Act(g, st, id, action).value)
  {
    var o := Apply(g.cfg, st.seats[st.toAct.value].value, st.currentBet, st.lastRaise, action);
    ActIsPlay(g, st, id, action);
    hide Apply, Act, Net, DealtFromDeck, Distinct, Settled, SameDeal, Acts, Advance, Fair, InTurn, Closed;
    MidSettled(g, st, action);
    DealKept(st, Mid(st, o));
    ActsNet(st.seats, st.toAct.value, st.currentBet, Mid(st, o).seats, o.bet, start);
    AdvanceFair(g, st, Mid(st, o), start);
  }

  // ---------------------------------------------------------------- whole hands

  /** A fair hand, played in any way, stays fair. */
  lemma {:induction false} RunFair(g: Game, st: State, moves: seq<Move>, start: seq<Slot>)
    requires g.value == HoldemValue && HandOrPaid(g, st) && DealtFromDeck(st) && Distinct(st.deck) && GoodConfig(g.cfg)
    requires Fair(g, start, st)
    ensures Fair(g, start, Run(g, st, moves))
    decreases |moves|
  {
    hide Fair, DealtFromDeck, Distinct, SameDeal, Act, Sane, Level, Covered, InTurn, Closed, CardsAt;
    if moves != [] {
      match Act(g, st, moves[0].playerId, moves[0].action)
      case Err(_) => RunFair(g, st, moves[1..], start);
      case Ok(next) =>
        StepFair(g, st, moves[0].playerId, moves[0].action, start);
        RunFair(g, next, moves[1..], start);
    }
  }

  lemma StepFair(g: Game, st: State, id: PlayerId, action: PlayerAction, start: seq<Slot>)
    requires g.value == HoldemValue && HandOrPaid(g, st) && DealtFromDeck(st) && Distinct(st.deck) && GoodConfig(g.cfg)
    requires Fair(g, start, st) && Act(g, st, id, action).Ok?
    ensures var next := Act(g, st, id, action).value;
      HandOrPaid(g, next) && DealtFromDeck(next) && Distinct(next.deck) && Fair(g, start, next)
  {
    StillOpen(g, st, id, action);
    hide Net, DealtFromDeck, Distinct, HandInv, HandOrPaid, Act;
    ActKeeps(g, st, id, action);
    DealKept(st, Act(g, st, id, action).value);
    ActFair(g, st, id, action, start);
  }

  lemma StillOpen(g: Game, st: State, id: PlayerId, action: PlayerAction)
    requires HandOrPaid(g, st) && Act(g, st, id, action).Ok?
    ensures HandInv(g, st) && !st.street.Payout?
  {
  }

  lemma OpenedNet(g: Game, st: State, deck: seq<Card>)
    requires IdleInv(g, st) && |deck| == DECK_SIZE && |ReadySet(st.seats)| >= 2
    requires NextButton(MapSeats(st.seats, FreshHand), st.button) < |st.seats|
    ensures Net(Opened(g, st, deck).seats, st.seats, [])
  {
    hide Opened, NextButton;
    var reset := MapSeats(st.seats, FreshHand);
    OpenedSeats(g, st, deck);
    var b := NextButton(reset, st.button);
    forall i: nat | i < |st.seats|
      ensures NetSeat(Opened(g, st, deck).seats[i], st.seats[i], [])
    {
      assert DealtSeat(reset[i], Opened(g, st, deck).seats[i], BlindOf(g, reset, b, i));
    }
  }

  lemma StartFair(g: Game, st: State, deck: seq<Card>)
    requires g.value == HoldemValue && IdleInv(g, st) && |deck| == DECK_SIZE && Distinct(deck) && StartHand(g, st, deck).Ok?
    ensures Fair(g, st.seats, StartHand(g, st, deck).value)
  {
    hide Net, DealtFromDeck, Distinct, Settled, Closed, NextStreet, NextButton, ShowdownFair, UncontestedFair;
    StartsReady(g, st, deck);
    var dealt := Opened(g, st, deck);
    OpenedNet(g, st, deck);
    OpenedFromDeck(g, st, deck);
    OpenedSettled(g, st, deck);
    if Closed(dealt.seats, dealt.currentBet) {
      CloseFair(g, dealt, 0, st.seats);
    }
  }

  /**
   * The whole of a hand, from the deal of any deck without repeats through any attempted moves. Until it is paid
   * every player has what they sat down with, less what they have put in the pot. Once it is paid by showdown, every
   * pot has an owner, its winners are exactly the eligible players whose best five cards nobody eligible beats, the
   * awards are what the pots pay, no player is awarded more than the sum over all players of the lesser of the two
   * commitments, and each stack is what it was, less the commitment, plus the awards. If everyone else folded, the
   * last player alone is paid, the pot less its rake.
   */
  lemma HandIsFair(g: Game, st: State, deck: seq<Card>, moves: seq<Move>)
    requires g.value == HoldemValue && IdleInv(g, st) && |deck| == DECK_SIZE && Distinct(deck) && StartHand(g, st, deck).Ok?
    ensures HandOrPaid(g, StartHand(g, st, deck).value)
    ensures Fair(g, st.seats, Run(g, StartHand(g, st, deck).value, moves))
  {
    hide Fair, HandOrPaid, StartHand, DealtFromDeck, Distinct, Opened;
    StartHandSafe(g, st, deck);
    var start := StartHand(g, st, deck).value;
    RunFromDeck(g, st, deck, []);
    StartFair(g, st, deck);
    RunFair(g, start, moves, st.seats);
  }

  /** In particular on every deck the shuffle makes. */
  lemma ShuffledHandIsFair(g: Game, st: State, h: Hash, seed: nat, nonce: nat, moves: seq<Move>)
    requires g.value == HoldemValue && IdleInv(g, st) && GoodHash(h) && StartHand(g, st, DeckOf(h, seed, nonce)).Ok?
    ensures HandOrPaid(g, StartHand(g, st, DeckOf(h, seed, nonce)).value)
    ensures Fair(g, st.seats, Run(g, StartHand(g, st, DeckOf(h, seed, nonce)).value, moves))
  {
    DeckHasNoRepeats(h, seed, nonce);
    HandIsFair(g, st, DeckOf(h, seed, nonce), moves);
  }
}
