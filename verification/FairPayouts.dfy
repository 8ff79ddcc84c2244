/** What each pot of a hand pays and keeps, chip by chip, stated without the program's own reckoning of rake and shares. */
module FairPayouts {
  import opened Common
  import opened Cards
  import opened Pots
  import opened Seats
  import opened Betting
  import opened HandRules
  import opened ShowdownProofs
  import opened BestHandsWin

  // ---------------------------------------------------------------- the rake

  /** As much may be kept of a pot as the percentage and the cap allow. */
  predicate MayKeep(cfg: Config, pot: nat, chips: nat) {
    chips <= cfg.rakeCap && chips as real <= pot as real * cfg.rakePercent
  }

  /** What a pot keeps: nothing without a flop, where that is the table's rule, and otherwise the most it may. */
  ghost predicate Keeps(cfg: Config, flop: bool, pot: nat, kept: nat) {
    if cfg.noFlopNoRake && !flop then kept == 0
    else forall chips: nat :: MayKeep(cfg, pot, chips) <==> chips <= kept
  }

  lemma RakeIsKept(g: Game, flop: bool, pot: nat)
    requires GoodConfig(g.cfg)
    ensures Keeps(g.cfg, flop, pot, RakeOn(g, flop, pot))
  {
    if RakeApplies(g, flop) {
      forall chips: nat
        ensures MayKeep(g.cfg, pot, chips) <==> chips <= RakeOn(g, flop, pot)
      {
        RakeIsMost(pot, g.cfg.rakePercent, g.cfg.rakeCap, chips);
      }
    }
  }

  // ---------------------------------------------------------------- seat order

  /** The one player sits in a lower seat than the other. */
  predicate SitsBefore(seats: seq<Slot>, id: PlayerId, other: PlayerId) {
    FindSeat(seats, id).Some? && FindSeat(seats, other).Some? && FindSeat(seats, id).value < FindSeat(seats, other).value
  }

  ghost predicate InSeatOrder(seats: seq<Slot>, ids: seq<PlayerId>) {
    forall i, j :: 0 <= i < j < |ids| ==> SitsBefore(seats, ids[i], ids[j])
  }

  lemma {:induction false} ContribsRise(seats: seq<Slot>, i: nat, j: nat) returns (h: nat, k: nat)
    requires i < j < |Contribs(seats)|
    ensures h < k < |seats| && seats[h].Some? && seats[k].Some?
    ensures seats[h].value.playerId == Contribs(seats)[i].playerId && seats[k].value.playerId == Contribs(seats)[j].playerId
  {
    if seats[0].None? {
      h, k := ContribsRise(seats[1..], i, j);
    } else if i > 0 {
      h, k := ContribsRise(seats[1..], i - 1, j - 1);
    } else {
      k := ContribsFromSeats(seats[1..], j - 1);
      return 0, k + 1;
    }
    h, k := h + 1, k + 1;
  }

  function IdsOf(c: seq<Contribution>): (ids: seq<PlayerId>)
    ensures |ids| == |c|
  {
    seq(|c|, i requires 0 <= i < |c| => c[i].playerId)
  }

  lemma ContribsInOrder(seats: seq<Slot>)
    requires DistinctPlayers(seats)
    ensures InSeatOrder(seats, IdsOf(Contribs(seats)))
  {
    var c := Contribs(seats);
    forall i, j | 0 <= i < j < |c|
      ensures SitsBefore(seats, c[i].playerId, c[j].playerId)
    {
      var h, k := ContribsRise(seats, i, j);
      FindUnique(seats, h);
      FindUnique(seats, k);
    }
  }

  /** The first of a list in seat order sits before all the others, which are in order too. */
  lemma OrderSplits(seats: seq<Slot>, ids: seq<PlayerId>)
    requires InSeatOrder(seats, ids) && ids != []
    ensures InSeatOrder(seats, ids[1..]) && forall id :: id in ids[1..] ==> SitsBefore(seats, ids[0], id)
  {
    hide SitsBefore;
  }

  lemma OrderExtends(seats: seq<Slot>, first: PlayerId, rest: seq<PlayerId>)
    requires InSeatOrder(seats, rest) && forall id :: id in rest ==> SitsBefore(seats, first, id)
    ensures InSeatOrder(seats, [first] + rest)
  {
    hide SitsBefore;
  }

  lemma EligibleFirst(c: seq<Contribution>, floor: nat)
    requires c != []
    ensures var rest := EligibleAbove(c[1..], floor);
      EligibleAbove(c, floor) == rest || EligibleAbove(c, floor) == [c[0].playerId] + rest
  {
    var rest := EligibleAbove(c[1..], floor);
    assert [] + rest == rest;
  }

  lemma IdsSplit(c: seq<Contribution>)
    requires c != []
    ensures IdsOf(c)[0] == c[0].playerId && IdsOf(c)[1..] == IdsOf(c[1..])
    ensures IdsOf(c) == [c[0].playerId] + IdsOf(c[1..])
  {
  }

  /** Whoever may win a pot is listed in seat order. */
  lemma {:induction false} EligibleInOrder(seats: seq<Slot>, c: seq<Contribution>, floor: nat)
    requires InSeatOrder(seats, IdsOf(c))
    ensures InSeatOrder(seats, EligibleAbove(c, floor))
    ensures forall id :: id in EligibleAbove(c, floor) ==> id in IdsOf(c)
  {
    hide SitsBefore, InSeatOrder;
    if c == [] {
      InOrderNone(seats);
    } else {
      hide EligibleAbove, IdsOf;
      EligibleFirst(c, floor);
      IdsSplit(c);
      OrderSplits(seats, IdsOf(c));
      EligibleInOrder(seats, c[1..], floor);
      OrderExtends(seats, c[0].playerId, EligibleAbove(c[1..], floor));
    }
  }

  lemma WinnersFirst(g: Game, seats: seq<Slot>, board: seq<Card>, ids: seq<PlayerId>, best: nat)
    requires ids != []
    ensures var rest := WithValue(g, seats, board, ids[1..], best);
      WithValue(g, seats, board, ids, best) == rest || WithValue(g, seats, board, ids, best) == [ids[0]] + rest
  {
    hide HandValue;
    var rest := WithValue(g, seats, board, ids[1..], best);
    assert [] + rest == rest;
  }

  /** And so are the winners among them. */
  lemma {:induction false} WinnersInOrder(g: Game, seats: seq<Slot>, board: seq<Card>, ids: seq<PlayerId>, best: nat)
    requires InSeatOrder(seats, ids)
    ensures InSeatOrder(seats, WithValue(g, seats, board, ids, best))
    ensures forall id :: id in WithValue(g, seats, board, ids, best) ==> id in ids
  {
    hide HandValue, SitsBefore, InSeatOrder;
    if ids == [] {
      InOrderNone(seats);
    } else {
      hide WithValue;
      WinnersFirst(g, seats, board, ids, best);
      OrderSplits(seats, ids);
      WinnersInOrder(g, seats, board, ids[1..], best);
      OrderExtends(seats, ids[0], WithValue(g, seats, board, ids[1..], best));
    }
  }

  // ---------------------------------------------------------------- one pot

  /** Even shares: nobody but the first differs, and the first only by the odd chips. */
  ghost predicate Even(paid: seq<PotShare>) {
    forall i, j :: 0 <= i < j < |paid| ==>
      paid[j].amount <= paid[i].amount < paid[j].amount + |paid| && (i > 0 ==> paid[i].amount == paid[j].amount)
  }

  function Payees(paid: seq<PotShare>): (ids: seq<PlayerId>)
    ensures |ids| == |paid|
  {
    seq(|paid|, i requires 0 <= i < |paid| => paid[i].playerId)
  }

  /**
   * What one pot pays: all that it does not keep, in even shares, to the eligible players whom nobody eligible beats,
   * in the order of their seats, the odd chips to the first. A pot that keeps everything pays nobody.
   */
  ghost predicate PotPays(end: State, pot: Pot, kept: nat, paid: seq<PotShare>)
    requires forall id :: id in pot.eligible ==> FindSeat(end.seats, id).Some?
  {
    && TotalShares(paid) + kept == pot.amount && Even(paid)
    && InSeatOrder(end.seats, Payees(paid))
    && (if kept == pot.amount then paid == []
        else forall id :: id in Payees(paid) <==> id in pot.eligible && Unbeaten(end, pot, id))
  }

  lemma SplitEven(amount: nat, winners: seq<PlayerId>)
    requires amount > 0 && winners != []
    ensures Even(SplitPot(amount, winners)) && Payees(SplitPot(amount, winners)) == winners
  {
    var paid := SplitPot(amount, winners);
    forall i, j | 0 <= i < j < |paid|
      ensures paid[j].amount <= paid[i].amount < paid[j].amount + |paid| && (i > 0 ==> paid[i].amount == paid[j].amount)
    {
      SplitIsEven(amount, winners, i, j);
    }
  }

  lemma SplitPays(end: State, pot: Pot, kept: nat, winners: seq<PlayerId>)
    requires forall id :: id in pot.eligible ==> FindSeat(end.seats, id).Some?
    requires kept <= pot.amount && winners != [] && InSeatOrder(end.seats, winners)
    requires forall id :: id in winners <==> id in pot.eligible && Unbeaten(end, pot, id)
    ensures PotPays(end, pot, kept, SplitPot(pot.amount - kept, winners))
  {
    hide Unbeaten, InSeatOrder, FindSeat, ShareOf, TotalShares;
    var paid := SplitPot(pot.amount - kept, winners);
    SplitTotal(pot.amount - kept, winners);
    if kept < pot.amount {
      hide Even, SplitPot;
      SplitEven(pot.amount - kept, winners);
    } else {
      InOrderNone(end.seats);
      assert Payees(paid) == [];
    }
  }

  lemma InOrderNone(seats: seq<Slot>)
    ensures InSeatOrder(seats, [])
  {
  }

  // ---------------------------------------------------------------- all pots

  function Flat(paid: seq<seq<PotShare>>): seq<PotShare> {
    if paid == [] then [] else paid[0] + Flat(paid[1..])
  }

  function SumOf(kept: seq<nat>): nat {
    if kept == [] then 0 else kept[0] + SumOf(kept[1..])
  }

  ghost predicate PotFairlyPaid(g: Game, end: State, pot: Pot, kept: nat, paid: seq<PotShare>) {
    && (forall id :: id in pot.eligible ==> FindSeat(end.seats, id).Some?)
    && Keeps(g.cfg, end.board != [], pot.amount, kept) && PotPays(end, pot, kept, paid)
  }

  /** Each pot keeps its rake and pays the rest; the awards and the rake of the hand are what they add up to. */
  ghost predicate PotsPay(g: Game, end: State, pots: seq<Pot>, kept: seq<nat>, paid: seq<seq<PotShare>>) {
    && |kept| == |paid| == |pots|
    && (forall j :: 0 <= j < |pots| ==> PotFairlyPaid(g, end, pots[j], kept[j], paid[j]))
    && end.winners == Flat(paid) && end.rake == SumOf(kept)
  }

  function PaidList(g: Game, st: State, pots: seq<Pot>): (paid: seq<seq<PotShare>>)
    requires GoodConfig(g.cfg)
    ensures |paid| == |pots| && forall j :: 0 <= j < |pots| ==> paid[j] == PotShares(g, st, pots[j])
  {
    if pots == [] then [] else [PotShares(g, st, pots[0])] + PaidList(g, st, pots[1..])
  }

  function KeptList(g: Game, flop: bool, pots: seq<Pot>): (kept: seq<nat>)
    requires GoodConfig(g.cfg)
    ensures |kept| == |pots| && forall j :: 0 <= j < |pots| ==> kept[j] == PotRake(g, flop, pots[j])
  {
    if pots == [] then [] else [PotRake(g, flop, pots[0])] + KeptList(g, flop, pots[1..])
  }

  lemma {:induction false} ListsAddUp(g: Game, st: State, pots: seq<Pot>)
    requires GoodConfig(g.cfg)
    ensures AllShares(g, st, pots) == Flat(PaidList(g, st, pots))
    ensures TotalRake(g, st.flopSeen, pots) == SumOf(KeptList(g, st.flopSeen, pots))
  {
    if pots != [] {
      ListsAddUp(g, st, pots[1..]);
    }
  }
}
