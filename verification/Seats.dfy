/** The table's data, and the seat arithmetic of the betting round: who is live, who can act, who is next. */
module Seats {
  import opened Common
  import opened Cards

  datatype Street = Waiting | Dealing | Preflop | Flop | Turn | River | Showdown | Payout

  predicate IsBetting(s: Street) {
    s.Preflop? || s.Flop? || s.Turn? || s.River?
  }

  datatype Config = Config(
    seats: nat, smallBlind: nat, bigBlind: nat, minBuyIn: nat, maxBuyIn: nat,
    rakePercent: real, rakeCap: nat, noFlopNoRake: bool)

  /** What the program assumes of a table's stakes, without checking it. */
  predicate GoodStakes(cfg: Config) {
    && 0 < cfg.smallBlind <= cfg.bigBlind
    && 0 < cfg.minBuyIn
    && 0.0 <= cfg.rakePercent <= 1.0
  }

  /** The settings of a table that was accepted. */
  predicate GoodConfig(cfg: Config) {
    2 <= cfg.seats <= 9 && GoodStakes(cfg)
  }

  datatype Seat = Seat(
    playerId: PlayerId, stack: nat, streetCommit: nat, handCommit: nat,
    folded: bool, allIn: bool, sittingOut: bool, hole: seq<Card>, acted: bool)

  type Slot = Option<Seat>

  predicate Live(s: Slot) {
    s.Some? && !s.value.folded
  }

  predicate CanAct(s: Slot) {
    Live(s) && !s.value.allIn
  }

  /** The seat still has to respond to the current bet. */
  predicate Owes(s: Slot, bet: nat) {
    CanAct(s) && !(s.value.acted && s.value.streetCommit == bet)
  }

  function LiveSet(seats: seq<Slot>): set<nat> {
    set i: nat | i < |seats| && Live(seats[i])
  }

  function ActorSet(seats: seq<Slot>): set<nat> {
    set i: nat | i < |seats| && CanAct(seats[i])
  }

  function OwerSet(seats: seq<Slot>, bet: nat): set<nat> {
    set i: nat | i < |seats| && Owes(seats[i], bet)
  }

  // ---------------------------------------------------------------- going round the table

  /** How many steps clockwise from one seat to another; a full circle to itself. */
  function Gap(n: nat, from: nat, to: nat): nat
    requires from < n && to < n
  {
    if to > from then to - from else to - from + n
  }

  /** The same with zero steps to itself. */
  function Dist(n: nat, from: nat, to: nat): nat
    requires from < n && to < n
  {
    if to >= from then to - from else to - from + n
  }

  function StepFrom(n: nat, from: nat, k: nat): (idx: nat)
    requires from < n && k <= n
    ensures idx < n
  {
    (from + k) % n
  }

  lemma StepGap(n: nat, from: nat, k: nat)
    requires from < n && 1 <= k <= n
    ensures Gap(n, from, StepFrom(n, from, k)) == k
    ensures forall j: nat :: j < n && Gap(n, from, j) == k ==> j == StepFrom(n, from, k)
  {
    if from + k < n {
      assert (from + k) % n == from + k;
    } else {
      assert (from + k) % n == from + k - n;
    }
  }

  /** The first seat of a kind at least k steps after a seat, if any. */
  function Scan(seats: seq<Slot>, from: nat, k: nat, who: Slot -> bool): (r: Option<nat>)
    requires from < |seats| && 1 <= k <= |seats| + 1
    ensures r.Some? ==> r.value < |seats| && who(seats[r.value])
    decreases |seats| + 1 - k
  {
    if k > |seats| then None
    else
      var idx := StepFrom(|seats|, from, k);
      if who(seats[idx]) then Some(idx) else Scan(seats, from, k + 1, who)
  }

  ghost predicate IsNext(seats: seq<Slot>, from: nat, k: nat, who: Slot -> bool, j: nat)
    requires from < |seats|
  {
    && j < |seats| && who(seats[j]) && k <= Gap(|seats|, from, j)
    && forall i: nat :: i < |seats| && who(seats[i]) && k <= Gap(|seats|, from, i) ==> Gap(|seats|, from, j) <= Gap(|seats|, from, i)
  }

  lemma {:induction false} ScanIs(seats: seq<Slot>, from: nat, k: nat, who: Slot -> bool)
    requires from < |seats| && 1 <= k <= |seats| + 1
    ensures match Scan(seats, from, k, who)
            case None => forall i: nat :: i < |seats| && who(seats[i]) ==> Gap(|seats|, from, i) < k
            case Some(j) => IsNext(seats, from, k, who, j)
    decreases |seats| + 1 - k
  {
    if k <= |seats| {
      StepGap(|seats|, from, k);
      ScanIs(seats, from, k + 1, who);
    }
  }

  /** The next seat of a kind going clockwise, the seat itself last. */
  function Next(seats: seq<Slot>, from: nat, who: Slot -> bool): (r: Option<nat>)
    requires from < |seats|
    ensures r.Some? ==> r.value < |seats| && who(seats[r.value])
  {
    Scan(seats, from, 1, who)
  }

  lemma NextIs(seats: seq<Slot>, from: nat, who: Slot -> bool)
    requires from < |seats|
    ensures match Next(seats, from, who)
            case None => forall i: nat :: i < |seats| ==> !who(seats[i])
            case Some(j) => IsNext(seats, from, 1, who, j)
  {
    ScanIs(seats, from, 1, who);
  }

  lemma NextUnique(seats: seq<Slot>, from: nat, who: Slot -> bool, j: nat)
    requires from < |seats| && IsNext(seats, from, 1, who, j)
    ensures Next(seats, from, who) == Some(j)
  {
    NextIs(seats, from, who);
  }

  // ---------------------------------------------------------------- sums over the seats

  function StackOf(s: Slot): nat {
    if s.Some? then s.value.stack else 0
  }

  function CommitOf(s: Slot): nat {
    if s.Some? then s.value.handCommit else 0
  }

  function Sum(seats: seq<Slot>, f: Slot -> nat): nat {
    if seats == [] then 0 else f(seats[0]) + Sum(seats[1..], f)
  }

  lemma {:induction false} SumUpdate(seats: seq<Slot>, i: nat, s: Slot, f: Slot -> nat)
    requires i < |seats|
    ensures Sum(seats[i := s], f) == Sum(seats, f) - f(seats[i]) + f(s)
  {
    if i == 0 {
      assert seats[i := s][1..] == seats[1..];
    } else {
      assert seats[i := s][1..] == seats[1..][i - 1 := s];
      SumUpdate(seats[1..], i - 1, s, f);
    }
  }

  lemma {:induction false} SumSame(a: seq<Slot>, b: seq<Slot>, f: Slot -> nat)
    requires |a| == |b| && forall i :: 0 <= i < |a| ==> f(a[i]) == f(b[i])
    ensures Sum(a, f) == Sum(b, f)
  {
    if a != [] {
      SumSame(a[1..], b[1..], f);
    }
  }
}
