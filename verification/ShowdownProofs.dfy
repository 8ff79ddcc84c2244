/** Paying out a hand: chips are conserved up to the rake, every pot is owned, awards are bounded and go to the best hands. */
module ShowdownProofs {
  import opened Common
  import opened Cards
  import opened Pots
  import opened Seats
  import opened Betting
  import opened HandRules

  // ---------------------------------------------------------------- seats and contributions

  lemma {:induction false} FindUnique(seats: seq<Slot>, i: nat)
    requires DistinctPlayers(seats) && i < |seats| && seats[i].Some?
    ensures FindSeat(seats, seats[i].value.playerId) == Some(i)
  {
    if i > 0 {
      FindUnique(seats[1..], i - 1);
    }
  }

  lemma {:induction false} FindNone(seats: seq<Slot>, id: PlayerId)
    ensures FindSeat(seats, id) == None <==> forall i: nat :: i < |seats| && seats[i].Some? ==> seats[i].value.playerId != id
  {
    if seats != [] {
      FindNone(seats[1..], id);
      assert forall i: nat :: 0 < i < |seats| ==> seats[i] == seats[1..][i - 1];
      if FindSeat(seats[1..], id) != None && !(seats[0].Some? && seats[0].value.playerId == id) {
        assert seats[FindSeat(seats, id).value].value.playerId == id;
      }
    }
  }

  function ContribOf(p: Seat): Contribution {
    Contribution(p.playerId, p.handCommit, p.folded)
  }

  lemma {:induction false} ContribsFromSeats(seats: seq<Slot>, j: nat) returns (k: nat)
    requires j < |Contribs(seats)|
    ensures k < |seats| && seats[k].Some? && Contribs(seats)[j] == ContribOf(seats[k].value)
  {
    if seats[0].Some? && j == 0 {
      k := 0;
    } else {
      var j' := if seats[0].Some? then j - 1 else j;
      k := ContribsFromSeats(seats[1..], j');
      assert Contribs(seats)[j] == Contribs(seats[1..])[j'];
      k := k + 1;
    }
  }

  lemma {:induction false} SeatContributes(seats: seq<Slot>, k: nat) returns (j: nat)
    requires k < |seats| && seats[k].Some?
    ensures j < |Contribs(seats)| && Contribs(seats)[j] == ContribOf(seats[k].value)
  {
    if k == 0 {
      j := 0;
    } else {
      j := SeatContributes(seats[1..], k - 1);
      j := if seats[0].Some? then j + 1 else j;
    }
  }

  lemma {:induction false} ContribsDistinct(seats: seq<Slot>)
    requires DistinctPlayers(seats)
    ensures DistinctIds(Contribs(seats))
  {
    if seats != [] {
      ContribsDistinct(seats[1..]);
      var rest := Contribs(seats[1..]);
      if seats[0].Some? {
        forall j: nat | j < |rest|
          ensures rest[j].playerId != seats[0].value.playerId
        {
          var k := ContribsFromSeats(seats[1..], j);
          assert seats[1..][k] == seats[k + 1];
        }
        assert Contribs(seats) == [ContribOf(seats[0].value)] + rest;
      } else {
        assert Contribs(seats) == rest;
      }
    }
  }

  lemma {:induction false} ContribsTotal(seats: seq<Slot>)
    ensures TotalCommitted(Contribs(seats)) == Sum(seats, CommitOf)
  {
    if seats != [] {
      ContribsTotal(seats[1..]);
      if seats[0].Some? {
        assert Contribs(seats)[1..] == Contribs(seats[1..]);
      } else {
        assert Contribs(seats) == Contribs(seats[1..]);
      }
    }
  }

  /** A standing folded seat is exactly a contribution over all live ones. */
  lemma OverStands(seats: seq<Slot>, j: nat) returns (k: nat)
    requires Over(Contribs(seats), j)
    ensures Stands(seats, k) && Contribs(seats)[j] == ContribOf(seats[k].value)
  {
    var c := Contribs(seats);
    k := ContribsFromSeats(seats, j);
    forall i: nat | i < |seats| && Live(seats[i])
      ensures seats[i].value.handCommit < seats[k].value.handCommit
    {
      var h := SeatContributes(seats, i);
      assert !c[h].folded;
    }
  }

  /** If at most one folded seat stands above the live ones, every pot of the showdown has an owner. */
  lemma StandsOnceOwned(seats: seq<Slot>)
    requires DistinctPlayers(seats)
    requires forall j, k :: Stands(seats, j) && Stands(seats, k) ==> j == k
    ensures AllOwned(PotsAbove(AfterReturn(Contribs(seats)), 0))
  {
    var c := Contribs(seats);
    ContribsDistinct(seats);
    forall i, j | Over(c, i) && Over(c, j)
      ensures i == j
    {
      var k := OverStands(seats, i);
      var h := OverStands(seats, j);
      assert k == h;
      assert c[i].playerId == c[j].playerId;
    }
    ReturnClearsOrphans(c);
    AllOwnedIff(AfterReturn(c));
  }

  // ---------------------------------------------------------------- crediting chips

  ghost predicate SameFace(a: Slot, b: Slot) {
    match a
    case None => b.None?
    case Some(p) => b.Some? && b.value == p.(stack := b.value.stack, handCommit := b.value.handCommit)
  }

  /** Same players in the same seats; only stacks and commitments may differ. */
  ghost predicate SameFaces(a: seq<Slot>, b: seq<Slot>) {
    |a| == |b| && forall i: nat :: i < |a| ==> SameFace(a[i], b[i])
  }

  lemma {:induction false} FindSame(a: seq<Slot>, b: seq<Slot>, id: PlayerId)
    requires SameFaces(a, b)
    ensures FindSeat(a, id) == FindSeat(b, id)
  {
    if a != [] {
      assert SameFaces(a[1..], b[1..]);
      FindSame(a[1..], b[1..], id);
    }
  }

  lemma CreditIs(seats: seq<Slot>, share: PotShare)
    requires FindSeat(seats, share.playerId).Some?
    ensures SameFaces(seats, Credit(seats, share))
    ensures Sum(Credit(seats, share), StackOf) == Sum(seats, StackOf) + share.amount
  {
  }

  ghost predicate Seated(seats: seq<Slot>, shares: seq<PotShare>) {
    forall i :: 0 <= i < |shares| ==> FindSeat(seats, shares[i].playerId).Some?
  }

  lemma {:induction false} CreditAllIs(seats: seq<Slot>, shares: seq<PotShare>)
    requires Seated(seats, shares)
    ensures SameFaces(seats, CreditAll(seats, shares))
    ensures Sum(CreditAll(seats, shares), StackOf) == Sum(seats, StackOf) + TotalShares(shares)
    decreases |shares|
  {
    if shares != [] {
      var next := Credit(seats, shares[0]);
      CreditIs(seats, shares[0]);
      forall i | 0 <= i < |shares[1..]|
        ensures FindSeat(next, shares[1..][i].playerId).Some?
      {
        assert shares[1..][i] == shares[i + 1];
        FindSame(seats, next, shares[i + 1].playerId);
      }
      CreditAllIs(next, shares[1..]);
    }
  }

  /** What a list of shares pays one player. */
  function Won(shares: seq<PotShare>, id: PlayerId): nat {
    if shares == [] then 0 else (if shares[0].playerId == id then shares[0].amount else 0) + Won(shares[1..], id)
  }

  lemma {:induction false} WonAppend(s: seq<PotShare>, t: seq<PotShare>, id: PlayerId)
    ensures Won(s + t, id) == Won(s, id) + Won(t, id)
  {
    if s == [] {
      assert s + t == t;
    } else {
      assert (s + t)[1..] == s[1..] + t;
      WonAppend(s[1..], t, id);
    }
  }

  lemma CreditPays(seats: seq<Slot>, share: PotShare, i: nat)
    requires DistinctPlayers(seats) && i < |seats| && seats[i].Some?
    ensures var p := seats[i].value;
      Credit(seats, share)[i] == Some(p.(stack := p.stack + if share.playerId == p.playerId then share.amount else 0))
    ensures DistinctPlayers(Credit(seats, share))
  {
    FindUnique(seats, i);
  }

  /** Crediting a list of shares pays each seat exactly its own shares. */
  lemma {:induction false} CreditAllPays(seats: seq<Slot>, shares: seq<PotShare>, i: nat)
    requires DistinctPlayers(seats) && Seated(seats, shares) && i < |seats| && seats[i].Some?
    ensures CreditAll(seats, shares)[i] ==
            Some(seats[i].value.(stack := seats[i].value.stack + Won(shares, seats[i].value.playerId)))
    decreases |shares|
  {
    hide Credit, DistinctPlayers;
    if shares != [] {
      var next := Credit(seats, shares[0]);
      CreditIs(seats, shares[0]);
      CreditPays(seats, shares[0], i);
      forall j | 0 <= j < |shares[1..]|
        ensures FindSeat(next, shares[1..][j].playerId).Some?
      {
        assert shares[1..][j] == shares[j + 1];
        FindSame(seats, next, shares[j + 1].playerId);
      }
      CreditAllPays(next, shares[1..], i);
    }
  }

  // ---------------------------------------------------------------- returning the uncalled bet

  lemma RefundSeat(seats: seq<Slot>) returns (k: nat)
    requires DistinctPlayers(seats) && Uncalled(Contribs(seats)) > 0
    ensures k < |seats| && seats[k].Some? && seats[k].value.handCommit >= Uncalled(Contribs(seats))
    ensures Refund(Contribs(seats)) == [PotShare(seats[k].value.playerId, Uncalled(Contribs(seats)))]
    ensures FindSeat(seats, seats[k].value.playerId) == Some(k)
  {
    k := ContribsFromSeats(seats, TopIndex(Contribs(seats)));
    FindUnique(seats, k);
  }

  /** The return puts the uncalled chips back on one stack and takes them out of the pot. */
  lemma RefundIs(seats: seq<Slot>)
    requires DistinctPlayers(seats)
    ensures var back := UncommitAll(seats, Refund(Contribs(seats)));
      && SameFaces(seats, back)
      && Sum(back, StackOf) == Sum(seats, StackOf) + Uncalled(Contribs(seats))
  {
    hide Uncalled, Uncommit, TopIndex;
    var c := Contribs(seats);
    if Uncalled(c) > 0 {
      var k := RefundSeat(seats);
      var share := PotShare(seats[k].value.playerId, Uncalled(c));
      UncommitIs(seats, share, k);
      assert UncommitAll(Uncommit(seats, share), []) == Uncommit(seats, share);
    }
  }

  lemma UncommitIs(seats: seq<Slot>, share: PotShare, k: nat)
    requires FindSeat(seats, share.playerId) == Some(k)
    ensures SameFaces(seats, Uncommit(seats, share))
    ensures Sum(Uncommit(seats, share), StackOf) == Sum(seats, StackOf) + share.amount
  {
    SumUpdate(seats, k, Uncommit(seats, share)[k], StackOf);
  }

  // ---------------------------------------------------------------- sharing out the pots

  lemma {:induction false} SharesAppend(s: seq<PotShare>, t: seq<PotShare>)
    ensures TotalShares(s + t) == TotalShares(s) + TotalShares(t)
  {
    if s == [] {
      assert s + t == t;
    } else {
      assert (s + t)[1..] == s[1..] + t;
      SharesAppend(s[1..], t);
    }
  }

  lemma {:induction false} BestIs(g: Game, seats: seq<Slot>, board: seq<Card>, ids: seq<PlayerId>)
    requires ids != []
    ensures forall id :: id in ids ==> HandValue(g, seats, board, id) <= BestValue(g, seats, board, ids)
    ensures exists id :: id in ids && HandValue(g, seats, board, id) == BestValue(g, seats, board, ids)
  {
    if |ids| == 1 {
      assert ids[0] in ids;
    } else {
      BestIs(g, seats, board, ids[1..]);
      var id :| id in ids[1..] && HandValue(g, seats, board, id) == BestValue(g, seats, board, ids[1..]);
      assert id in ids && ids[0] in ids;
    }
  }

  lemma {:induction false} WithValueIs(g: Game, seats: seq<Slot>, board: seq<Card>, ids: seq<PlayerId>, best: nat, id: PlayerId)
    ensures id in WithValue(g, seats, board, ids, best) <==> id in ids && HandValue(g, seats, board, id) == best
  {
    if ids != [] {
      WithValueIs(g, seats, board, ids[1..], best, id);
    }
  }

  lemma SameValues(g: Game, a: seq<Slot>, b: seq<Slot>, board: seq<Card>, ids: seq<PlayerId>)
    requires SameFaces(a, b)
    ensures BestValue(g, a, board, ids) == BestValue(g, b, board, ids)
    ensures forall best: nat :: WithValue(g, a, board, ids, best) == WithValue(g, b, board, ids, best)
  {
    if ids != [] {
      FindSame(a, b, ids[0]);
      var k := FindSeat(a, ids[0]);
      if k.Some? {
        assert SameFace(a[k.value], b[k.value]);
      }
      SameValues(g, a, b, board, ids[1..]);
    }
  }

  /** The winners of a pot are exactly its eligible players with the best hand, and there is at least one. */
  lemma WinnersAreBest(g: Game, st: State, pot: Pot)
    requires pot.eligible != []
    ensures PotWinners(g, st.seats, st.board, pot) != []
    ensures forall id :: id in PotWinners(g, st.seats, st.board, pot) <==>
      id in pot.eligible && forall other :: other in pot.eligible ==>
        HandValue(g, st.seats, st.board, other) <= HandValue(g, st.seats, st.board, id)
  {
    var best := BestValue(g, st.seats, st.board, pot.eligible);
    BestIs(g, st.seats, st.board, pot.eligible);
    forall id
      ensures id in PotWinners(g, st.seats, st.board, pot) <==> id in pot.eligible && HandValue(g, st.seats, st.board, id) == best
    {
      WithValueIs(g, st.seats, st.board, pot.eligible, best, id);
    }
  }

  /** Each owned pot is paid out in full, less its rake, to its best hands only. */
  lemma PotPaid(g: Game, st: State, pot: Pot)
    requires GoodConfig(g.cfg) && pot.eligible != []
    ensures TotalShares(PotShares(g, st, pot)) + PotRake(g, st.flopSeen, pot) == pot.amount
    ensures forall s :: s in PotShares(g, st, pot) ==> s.playerId in PotWinners(g, st.seats, st.board, pot)
  {
    var winners := PotWinners(g, st.seats, st.board, pot);
    assert winners != [] by {
      WinnersAreBest(g, st, pot);
    }
    SplitTotal(pot.amount - RakeOn(g, st.flopSeen, pot.amount), winners);
  }

  lemma {:induction false} AllPaid(g: Game, st: State, pots: seq<Pot>)
    requires GoodConfig(g.cfg) && AllOwned(pots)
    ensures TotalShares(AllShares(g, st, pots)) + TotalRake(g, st.flopSeen, pots) == TotalAmount(pots)
  {
    if pots != [] {
      PotPaid(g, st, pots[0]);
      assert forall k :: 0 <= k < |pots[1..]| ==> pots[1..][k] == pots[k + 1];
      AllPaid(g, st, pots[1..]);
      SharesAppend(PotShares(g, st, pots[0]), AllShares(g, st, pots[1..]));
    }
  }

  lemma ShareEligible(g: Game, st: State, pot: Pot, s: PotShare)
    requires GoodConfig(g.cfg) && s in PotShares(g, st, pot)
    ensures s.playerId in pot.eligible
  {
    PotPaid(g, st, pot);
    WinnersAreBest(g, st, pot);
  }

  lemma {:induction false} ShareSource(g: Game, st: State, pots: seq<Pot>, s: PotShare) returns (k: nat)
    requires GoodConfig(g.cfg) && s in AllShares(g, st, pots)
    ensures k < |pots| && s in PotShares(g, st, pots[k]) && s.playerId in pots[k].eligible
  {
    hide PotShares;
    if s in PotShares(g, st, pots[0]) {
      k := 0;
      ShareEligible(g, st, pots[0], s);
    } else {
      k := ShareSource(g, st, pots[1..], s);
      k := k + 1;
    }
  }

  /** Every share of the showdown goes to a seated, unfolded player. */
  lemma SharesGoToLive(g: Game, st: State, s: PotShare)
    requires GoodConfig(g.cfg) && DistinctPlayers(st.seats) && s in ShowdownShares(g, st)
    ensures FindSeat(st.seats, s.playerId).Some? && Live(st.seats[FindSeat(st.seats, s.playerId).value])
  {
    var c := Contribs(st.seats);
    var k := ShareSource(g, st, ShowdownPots(st), s);
    EligibleAreLive(AfterReturn(c), k, s.playerId);
    var i :| 0 <= i < |c| && AfterReturn(c)[i].playerId == s.playerId && !AfterReturn(c)[i].folded;
    assert c[i].playerId == s.playerId && !c[i].folded;
    var h := ContribsFromSeats(st.seats, i);
    FindUnique(st.seats, h);
  }

  lemma SharesSeated(g: Game, st: State, seats: seq<Slot>)
    requires GoodConfig(g.cfg) && DistinctPlayers(st.seats) && SameFaces(st.seats, seats)
    ensures Seated(seats, ShowdownShares(g, st))
  {
    var shares := ShowdownShares(g, st);
    forall i | 0 <= i < |shares|
      ensures FindSeat(seats, shares[i].playerId).Some?
    {
      assert shares[i] in shares;
      SharesGoToLive(g, st, shares[i]);
      FindSame(st.seats, seats, shares[i].playerId);
    }
  }

  /** Showdown conserves chips: the stacks grow by the pot less exactly the rake taken. */
  lemma ShowdownConserves(g: Game, st: State)
    requires GoodConfig(g.cfg) && DistinctPlayers(st.seats)
    requires forall j, k :: Stands(st.seats, j) && Stands(st.seats, k) ==> j == k
    ensures AllOwned(ShowdownPots(st))
    ensures Sum(DoShowdown(g, st).seats, StackOf) + DoShowdown(g, st).rake == Sum(st.seats, StackOf) + Sum(st.seats, CommitOf)
    ensures SameFaces(st.seats, DoShowdown(g, st).seats)
  {
    var c := Contribs(st.seats);
    var back := UncommitAll(st.seats, Refund(c));
    var shares := ShowdownShares(g, st);
    StandsOnceOwned(st.seats);
    RefundIs(st.seats);
    SharesSeated(g, st, back);
    CreditAllIs(back, shares);
    FacesCompose(st.seats, back, CreditAll(back, shares));
    AllPaid(g, st, ShowdownPots(st));
    PotsTotal(AfterReturn(c));
    ReturnConserves(c);
    ContribsTotal(st.seats);
  }

  lemma FacesCompose(a: seq<Slot>, b: seq<Slot>, c: seq<Slot>)
    requires SameFaces(a, b) && SameFaces(b, c)
    ensures SameFaces(a, c)
  {
  }

  /** Refunding the uncalled bet and crediting the rest, less some rake, conserves chips. */
  lemma PayOneConserves(seats: seq<Slot>, share: PotShare, rake: nat)
    requires DistinctPlayers(seats) && FindSeat(seats, share.playerId).Some?
    requires share.amount + rake == TotalCommitted(AfterReturn(Contribs(seats)))
    ensures var end := Credit(UncommitAll(seats, Refund(Contribs(seats))), share);
      && Sum(end, StackOf) + rake == Sum(seats, StackOf) + Sum(seats, CommitOf)
      && SameFaces(seats, end)
  {
    var c := Contribs(seats);
    var back := UncommitAll(seats, Refund(c));
    RefundIs(seats);
    FindSame(seats, back, share.playerId);
    CreditIs(back, share);
    FacesCompose(seats, back, Credit(back, share));
    ReturnConserves(c);
    ContribsTotal(seats);
  }

  /** The uncontested ending conserves chips in the same way. */
  lemma UncontestedConserves(g: Game, st: State, winner: PlayerId)
    requires GoodConfig(g.cfg) && DistinctPlayers(st.seats) && FindSeat(st.seats, winner).Some?
    ensures var end := AwardUncontested(g, st, winner);
      && Sum(end.seats, StackOf) + end.rake == Sum(st.seats, StackOf) + Sum(st.seats, CommitOf)
      && SameFaces(st.seats, end.seats)
  {
    hide Sum, SameFaces, Contribs, TotalCommitted, AfterReturn, DistinctPlayers, Credit, UncommitAll, Refund, FindSeat;
    var pot := TotalCommitted(AfterReturn(Contribs(st.seats)));
    var rake := RakeOn(g, st.flopSeen, pot);
    PayOneConserves(st.seats, PotShare(winner, pot - rake), rake);
  }

  // ---------------------------------------------------------------- how much a player can win

  lemma {:induction false} WonNothing(shares: seq<PotShare>, id: PlayerId)
    requires forall s :: s in shares ==> s.playerId != id
    ensures Won(shares, id) == 0
  {
    if shares != [] {
      assert shares[0] in shares;
      WonNothing(shares[1..], id);
    }
  }

  lemma {:induction false} WonAtMost(shares: seq<PotShare>, id: PlayerId)
    ensures Won(shares, id) <= TotalShares(shares)
  {
    if shares != [] {
      WonAtMost(shares[1..], id);
    }
  }

  lemma {:induction false} WonInside(g: Game, st: State, pots: seq<Pot>, id: PlayerId)
    requires GoodConfig(g.cfg) && AllOwned(pots)
    ensures Won(AllShares(g, st, pots), id) <= Winnable(pots, id)
  {
    if pots != [] {
      var first := PotShares(g, st, pots[0]);
      assert forall k :: 0 <= k < |pots[1..]| ==> pots[1..][k] == pots[k + 1];
      WonInside(g, st, pots[1..], id);
      WonAppend(first, AllShares(g, st, pots[1..]), id);
      PotPaid(g, st, pots[0]);
      WinnersAreBest(g, st, pots[0]);
      if id in pots[0].eligible {
        WonAtMost(first, id);
      } else {
        WonNothing(first, id);
      }
    }
  }

  /** No award exceeds what the contributors matched: player i wins at most the sum over j of min(c_i, c_j). */
  lemma AwardBound(g: Game, st: State, i: nat)
    requires GoodConfig(g.cfg) && DistinctPlayers(st.seats) && AllOwned(ShowdownPots(st))
    requires i < |Contribs(st.seats)| && !Contribs(st.seats)[i].folded
    ensures var c := AfterReturn(Contribs(st.seats));
      Won(ShowdownShares(g, st), c[i].playerId) <= Between(c, 0, c[i].committed)
  {
    var c := AfterReturn(Contribs(st.seats));
    ContribsDistinct(st.seats);
    assert DistinctIds(c);
    WonInside(g, st, ShowdownPots(st), c[i].playerId);
    WinnableIsMatched(c, i);
  }
}
