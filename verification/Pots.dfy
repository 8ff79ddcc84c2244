/**
 * Uncalled bets, side pots, rake and splits.
 *
 * `PotsAbove` describes side pots by water levels over the original commitments; the methods
 * `ReturnUncalled` and `BuildPots` work in place, as the program does, and are proved equal to it.
 */
module Pots {
  import opened Common

  datatype PotShare = PotShare(playerId: PlayerId, amount: nat)

  datatype Pot = Pot(amount: nat, eligible: seq<PlayerId>)

  datatype Contribution = Contribution(playerId: PlayerId, committed: nat, folded: bool)

  // ---------------------------------------------------------------- vocabulary

  function TotalCommitted(c: seq<Contribution>): nat {
    if c == [] then 0 else c[0].committed + TotalCommitted(c[1..])
  }

  function TotalAmount(pots: seq<Pot>): nat {
    if pots == [] then 0 else pots[0].amount + TotalAmount(pots[1..])
  }

  ghost predicate DistinctIds(c: seq<Contribution>) {
    forall i, j :: 0 <= i < j < |c| ==> c[i].playerId != c[j].playerId
  }

  /** A folded contributor with chips in the middle that no live contributor has matched. */
  ghost predicate Over(c: seq<Contribution>, j: int) {
    && 0 <= j < |c| && c[j].folded && c[j].committed > 0
    && forall i :: 0 <= i < |c| && !c[i].folded ==> c[i].committed < c[j].committed
  }

  ghost predicate OrphanFree(c: seq<Contribution>) {
    forall j :: !Over(c, j)
  }

  // ---------------------------------------------------------------- uncalled bets

  /** Index of the largest commitment, the earliest one on a tie. */
  function TopIndex(c: seq<Contribution>): (k: nat)
    requires c != []
    ensures k < |c|
    ensures forall i :: 0 <= i < |c| ==> c[i].committed <= c[k].committed
    ensures forall i :: 0 <= i < k ==> c[i].committed < c[k].committed
  {
    if |c| == 1 then 0
    else
      var k := TopIndex(c[1..]);
      assert forall i :: 1 <= i < |c| ==> c[i] == c[1..][i - 1];
      if c[0].committed >= c[k + 1].committed then 0 else k + 1
  }

  function Largest(c: seq<Contribution>): (m: nat)
    ensures forall i :: 0 <= i < |c| ==> c[i].committed <= m
    ensures m == 0 || exists i :: 0 <= i < |c| && c[i].committed == m
  {
    if c == [] then 0
    else
      var m := Largest(c[1..]);
      assert forall i :: 1 <= i < |c| ==> c[i] == c[1..][i - 1];
      assert m == 0 || exists i :: 1 <= i < |c| && c[i].committed == m by {
        if m > 0 {
          var i :| 0 <= i < |c[1..]| && c[1..][i].committed == m;
          assert c[i + 1].committed == m;
        }
      }
      Max(c[0].committed, m)
  }

  /** The largest commitment of anyone but contributor k. */
  function LargestOther(c: seq<Contribution>, k: nat): (m: nat)
    requires k < |c|
    ensures forall i :: 0 <= i < |c| && i != k ==> c[i].committed <= m
    ensures m == 0 || exists i :: 0 <= i < |c| && i != k && c[i].committed == m
  {
    assert forall i :: 1 <= i < |c| ==> c[i] == c[1..][i - 1];
    if k == 0 then Largest(c[1..])
    else
      var m := LargestOther(c[1..], k - 1);
      assert m == 0 || exists i :: 1 <= i < |c| && i != k && c[i].committed == m by {
        if m > 0 {
          var i :| 0 <= i < |c[1..]| && i != k - 1 && c[1..][i].committed == m;
          assert c[i + 1].committed == m;
        }
      }
      Max(c[0].committed, m)
  }

  /** The chips nobody called: what the top contributor has above everyone else. */
  function Uncalled(c: seq<Contribution>): nat {
    if c == [] then 0
    else
      var k := TopIndex(c);
      Excess(c[k].committed, LargestOther(c, k))
  }

  function AfterReturn(c: seq<Contribution>): seq<Contribution> {
    if Uncalled(c) == 0 then c
    else
      var k := TopIndex(c);
      c[k := c[k].(committed := c[k].committed - Uncalled(c))]
  }

  function Refund(c: seq<Contribution>): seq<PotShare> {
    if Uncalled(c) == 0 then []
    else [PotShare(c[TopIndex(c)].playerId, Uncalled(c))]
  }

  lemma {:induction false} TotalUpdate(c: seq<Contribution>, k: nat, x: Contribution)
    requires k < |c|
    ensures TotalCommitted(c[k := x]) == TotalCommitted(c) - c[k].committed + x.committed
  {
    if k == 0 {
      assert c[k := x][1..] == c[1..];
    } else {
      assert c[k := x][1..] == c[1..][k - 1 := x];
      TotalUpdate(c[1..], k - 1, x);
    }
  }

  /** Returning an uncalled bet moves chips from the middle to one stack and creates none. */
  lemma ReturnConserves(c: seq<Contribution>)
    ensures TotalCommitted(AfterReturn(c)) + Uncalled(c) == TotalCommitted(c)
  {
    if Uncalled(c) > 0 {
      var k := TopIndex(c);
      TotalUpdate(c, k, c[k].(committed := c[k].committed - Uncalled(c)));
    }
  }

  /** After the return nobody stands alone above everybody else, so a second return is a no-op. */
  lemma ReturnLevelsTop(c: seq<Contribution>)
    ensures Uncalled(AfterReturn(c)) == 0
  {
    var d := AfterReturn(c);
    if Uncalled(c) > 0 {
      var k := TopIndex(c);
      var h := TopIndex(d);
      assert d[k].committed == LargestOther(c, k);
      if d[h].committed > 0 {
        var i :| 0 <= i < |c| && i != k && c[i].committed == LargestOther(c, k);
        assert d[i] == c[i];
        assert LargestOther(d, h) >= d[if h == k then i else k].committed;
      }
    }
  }

  /**
   * Exactly when the return clears the way: every pot built afterwards can have a live owner
   * iff at most one folded contributor stood above all live ones.
   */
  lemma ReturnClearsOrphans(c: seq<Contribution>)
    ensures OrphanFree(AfterReturn(c)) <==> (forall j, k :: Over(c, j) && Over(c, k) ==> j == k)
  {
    if c != [] {
      var d := AfterReturn(c);
      var k := TopIndex(c);
      assert forall i :: 0 <= i < |c| && i != k ==> d[i] == c[i];
      assert d[k].committed == LargestOther(c, k) || d == c;
      if OrphanFree(d) {
        TwoOverStay(c);
      } else {
        var j :| Over(d, j);
        OrphanMeansTwoOver(c, j);
      }
    }
  }

  lemma TwoOverStay(c: seq<Contribution>)
    requires OrphanFree(AfterReturn(c))
    ensures forall i, j :: Over(c, i) && Over(c, j) ==> i == j
  {
    var d := AfterReturn(c);
    forall i, j | Over(c, i) && Over(c, j)
      ensures i == j
    {
      if i != j {
        var k := TopIndex(c);
        var low := if c[i].committed <= c[j].committed then i else j;
        assert d[k].committed >= c[low].committed;
        assert Over(d, low);
      }
    }
  }

  lemma OrphanMeansTwoOver(c: seq<Contribution>, j: int)
    requires c != [] && Over(AfterReturn(c), j)
    ensures exists i, k :: Over(c, i) && Over(c, k) && i != k
  {
    var d := AfterReturn(c);
    var k := TopIndex(c);
    assert d[k].committed >= d[j].committed;
    assert c[k].folded;
    forall i | 0 <= i < |c| && !c[i].folded
      ensures c[i].committed < d[j].committed
    {
      assert d[i] == c[i];
    }
    assert Over(c, j) && Over(c, k);
    if j == k {
      var o :| 0 <= o < |c| && o != k && c[o].committed == LargestOther(c, k);
      assert Over(c, o);
    }
  }

  // ---------------------------------------------------------------- side pots, by level

  predicate Above(x: Contribution, floor: nat) {
    x.committed > floor
  }

  /** The chips of one pot: every contributor who reaches it adds the same height. */
  function Slice(height: nat, contributors: nat): nat {
    height * contributors
  }

  function CountAbove(c: seq<Contribution>, floor: nat): nat {
    if c == [] then 0 else (if Above(c[0], floor) then 1 else 0) + CountAbove(c[1..], floor)
  }

  /** The live contributors above a level, in seat order: who may win the pot that starts there. */
  function EligibleAbove(c: seq<Contribution>, floor: nat): seq<PlayerId> {
    if c == [] then []
    else (if Above(c[0], floor) && !c[0].folded then [c[0].playerId] else []) + EligibleAbove(c[1..], floor)
  }

  /** The next commitment level above the floor, or the floor when there is none. */
  function NextLevel(c: seq<Contribution>, floor: nat): (level: nat)
    ensures floor <= level
  {
    if c == [] then floor
    else
      var rest := NextLevel(c[1..], floor);
      if !Above(c[0], floor) then rest
      else if rest == floor then c[0].committed
      else Min(c[0].committed, rest)
  }

  lemma {:induction false} NextLevelIs(c: seq<Contribution>, floor: nat)
    ensures NextLevel(c, floor) == floor <==> forall i :: 0 <= i < |c| ==> !Above(c[i], floor)
    ensures NextLevel(c, floor) > floor ==> exists i :: 0 <= i < |c| && c[i].committed == NextLevel(c, floor)
    ensures forall i :: 0 <= i < |c| && Above(c[i], floor) ==> NextLevel(c, floor) <= c[i].committed
  {
    if c != [] {
      NextLevelIs(c[1..], floor);
      assert forall i :: 1 <= i < |c| ==> c[i] == c[1..][i - 1];
      var rest := NextLevel(c[1..], floor);
      if rest > floor {
        var i :| 0 <= i < |c[1..]| && c[1..][i].committed == rest;
        assert c[i + 1].committed == rest;
      }
    }
  }

  lemma {:induction false} CountFalls(c: seq<Contribution>, low: nat, high: nat)
    requires low <= high
    ensures CountAbove(c, high) <= CountAbove(c, low)
    ensures (exists i :: 0 <= i < |c| && low < c[i].committed <= high) ==> CountAbove(c, high) < CountAbove(c, low)
  {
    if c != [] {
      CountFalls(c[1..], low, high);
      if i :| 1 <= i < |c| && low < c[i].committed <= high {
        assert c[1..][i - 1] == c[i];
      }
    }
  }

  lemma CountDrops(c: seq<Contribution>, floor: nat)
    requires floor < NextLevel(c, floor)
    ensures CountAbove(c, NextLevel(c, floor)) < CountAbove(c, floor)
  {
    NextLevelIs(c, floor);
    CountFalls(c, floor, NextLevel(c, floor));
  }

  /** Side pots for the chips above a level: one pot for each distinct commitment. */
  function PotsAbove(c: seq<Contribution>, floor: nat): seq<Pot>
    decreases CountAbove(c, floor)
  {
    var level := NextLevel(c, floor);
    if level == floor then []
    else
      CountDrops(c, floor);
      [Pot(Slice(level - floor, CountAbove(c, floor)), EligibleAbove(c, floor))] + PotsAbove(c, level)
  }

  /** What the contributors put in between two levels. */
  function Between(c: seq<Contribution>, floor: nat, cap: nat): nat {
    if c == [] then 0 else Excess(Min(c[0].committed, cap), floor) + Between(c[1..], floor, cap)
  }

  /** The chips in all pots that player p may win. */
  function Winnable(pots: seq<Pot>, p: PlayerId): nat {
    if pots == [] then 0
    else (if p in pots[0].eligible then pots[0].amount else 0) + Winnable(pots[1..], p)
  }

  lemma {:induction false} BetweenSplits(c: seq<Contribution>, floor: nat, cap: nat)
    requires floor < NextLevel(c, floor) <= cap
    ensures Between(c, floor, cap) ==
            Slice(NextLevel(c, floor) - floor, CountAbove(c, floor)) + Between(c, NextLevel(c, floor), cap)
  {
    NextLevelIs(c, floor);
    BetweenSplitsAt(c, floor, NextLevel(c, floor), cap);
  }

  lemma {:induction false} BetweenSplitsAt(c: seq<Contribution>, floor: nat, level: nat, cap: nat)
    requires floor < level <= cap
    requires forall i :: 0 <= i < |c| && Above(c[i], floor) ==> level <= c[i].committed
    ensures Between(c, floor, cap) == Slice(level - floor, CountAbove(c, floor)) + Between(c, level, cap)
  {
    if c != [] {
      assert forall i :: 0 <= i < |c[1..]| ==> c[1..][i] == c[i + 1];
      BetweenSplitsAt(c[1..], floor, level, cap);
      var n := CountAbove(c[1..], floor);
      assert (level - floor) * (1 + n) == (level - floor) + (level - floor) * n;
    }
  }

  lemma {:induction false} BetweenNothing(c: seq<Contribution>, floor: nat, cap: nat)
    requires (forall i :: 0 <= i < |c| ==> !Above(c[i], floor)) || cap <= floor
    ensures Between(c, floor, cap) == 0
  {
    if c != [] {
      assert forall i :: 0 <= i < |c[1..]| ==> c[1..][i] == c[i + 1];
      BetweenNothing(c[1..], floor, cap);
    }
  }

  lemma {:induction false} BetweenAll(c: seq<Contribution>, cap: nat)
    requires forall i :: 0 <= i < |c| ==> c[i].committed <= cap
    ensures Between(c, 0, cap) == TotalCommitted(c)
  {
    if c != [] {
      assert forall i :: 0 <= i < |c[1..]| ==> c[1..][i] == c[i + 1];
      BetweenAll(c[1..], cap);
    }
  }

  lemma {:induction false} PotsTotalAbove(c: seq<Contribution>, floor: nat, cap: nat)
    requires forall i :: 0 <= i < |c| ==> c[i].committed <= cap
    ensures TotalAmount(PotsAbove(c, floor)) == Between(c, floor, cap)
    decreases CountAbove(c, floor)
  {
    NextLevelIs(c, floor);
    var level := NextLevel(c, floor);
    if level == floor {
      BetweenNothing(c, floor, cap);
    } else {
      BetweenSplits(c, floor, cap);
      CountDrops(c, floor);
      PotsTotalAbove(c, level, cap);
    }
  }

  /** The pots hold exactly the committed chips. */
  lemma PotsTotal(c: seq<Contribution>)
    ensures TotalAmount(PotsAbove(c, 0)) == TotalCommitted(c)
  {
    PotsTotalAbove(c, 0, Largest(c));
    BetweenAll(c, Largest(c));
  }

  lemma {:induction false} EligibleIff(c: seq<Contribution>, floor: nat, p: PlayerId)
    ensures p in EligibleAbove(c, floor) <==>
            exists i :: 0 <= i < |c| && c[i].playerId == p && !c[i].folded && Above(c[i], floor)
  {
    if c != [] {
      EligibleIff(c[1..], floor, p);
      assert forall i :: 1 <= i < |c| ==> c[i] == c[1..][i - 1];
      if p in EligibleAbove(c[1..], floor) {
        var i :| 0 <= i < |c[1..]| && c[1..][i].playerId == p && !c[1..][i].folded && Above(c[1..][i], floor);
        assert c[i + 1].playerId == p;
      }
    }
  }

  lemma EligibleAt(c: seq<Contribution>, floor: nat, i: nat)
    requires DistinctIds(c) && i < |c|
    ensures c[i].playerId in EligibleAbove(c, floor) <==> !c[i].folded && Above(c[i], floor)
  {
    EligibleIff(c, floor, c[i].playerId);
  }

  lemma WinnableStep(c: seq<Contribution>, floor: nat, p: PlayerId)
    requires floor < NextLevel(c, floor)
    ensures Winnable(PotsAbove(c, floor), p) == Winnable(PotsAbove(c, NextLevel(c, floor)), p)
      + if p in EligibleAbove(c, floor) then Slice(NextLevel(c, floor) - floor, CountAbove(c, floor)) else 0
  {
    hide CountAbove, EligibleAbove, Slice, NextLevel;
    var pots := PotsAbove(c, floor);
    assert pots[1..] == PotsAbove(c, NextLevel(c, floor));
  }

  lemma {:induction false} WinnableAbove(c: seq<Contribution>, floor: nat, i: nat)
    requires DistinctIds(c) && i < |c| && !c[i].folded
    ensures Winnable(PotsAbove(c, floor), c[i].playerId) == Between(c, floor, c[i].committed)
    decreases CountAbove(c, floor)
  {
    hide CountAbove, EligibleAbove, Slice, NextLevel, PotsAbove, Winnable, Between;
    NextLevelIs(c, floor);
    var level := NextLevel(c, floor);
    if level == floor {
      BetweenNothing(c, floor, c[i].committed);
      NoPots(c, floor);
    } else {
      CountDrops(c, floor);
      WinnableStep(c, floor, c[i].playerId);
      EligibleAt(c, floor, i);
      WinnableAbove(c, level, i);
      if Above(c[i], floor) {
        BetweenSplits(c, floor, c[i].committed);
      } else {
        BetweenNothing(c, floor, c[i].committed);
        BetweenNothing(c, level, c[i].committed);
      }
    }
  }

  lemma NoPots(c: seq<Contribution>, floor: nat)
    requires NextLevel(c, floor) == floor
    ensures forall p :: Winnable(PotsAbove(c, floor), p) == 0
  {
  }

  /**
   * Side-pot exactness: the pots a live contributor may win total exactly what each contributor,
   * himself included, matched of his own commitment.
   */
  lemma WinnableIsMatched(c: seq<Contribution>, i: nat)
    requires DistinctIds(c) && i < |c| && !c[i].folded
    ensures Winnable(PotsAbove(c, 0), c[i].playerId) == Between(c, 0, c[i].committed)
  {
    WinnableAbove(c, 0, i);
  }

  /** The level at which the k-th pot starts. */
  function FloorOf(c: seq<Contribution>, floor: nat, k: nat): nat
    decreases k
  {
    if k == 0 then floor else FloorOf(c, NextLevel(c, floor), k - 1)
  }

  lemma {:induction false} PotAt(c: seq<Contribution>, floor: nat, k: nat)
    requires k < |PotsAbove(c, floor)|
    ensures var f := FloorOf(c, floor, k); floor <= f < NextLevel(c, f)
    ensures PotsAbove(c, floor)[k].eligible == EligibleAbove(c, FloorOf(c, floor, k))
    decreases k
  {
    if k > 0 {
      PotAt(c, NextLevel(c, floor), k - 1);
    }
  }

  lemma {:induction false} PotsNestedAbove(c: seq<Contribution>, floor: nat, j: nat, k: nat, p: PlayerId)
    requires j <= k < |PotsAbove(c, floor)| && p in PotsAbove(c, floor)[k].eligible
    ensures p in PotsAbove(c, floor)[j].eligible
    decreases j
  {
    if j == 0 {
      PotAt(c, floor, k);
      EligibleIff(c, floor, p);
      EligibleIff(c, FloorOf(c, floor, k), p);
    } else {
      PotsNestedAbove(c, NextLevel(c, floor), j - 1, k - 1, p);
    }
  }

  /** Later pots are contested by fewer players: the eligible sets are nested. */
  lemma PotsNested(c: seq<Contribution>, j: nat, k: nat, p: PlayerId)
    requires j <= k < |PotsAbove(c, 0)| && p in PotsAbove(c, 0)[k].eligible
    ensures p in PotsAbove(c, 0)[j].eligible
  {
    PotsNestedAbove(c, 0, j, k, p);
  }

  /** Only live contributors are ever eligible. */
  lemma EligibleAreLive(c: seq<Contribution>, k: nat, p: PlayerId)
    requires k < |PotsAbove(c, 0)| && p in PotsAbove(c, 0)[k].eligible
    ensures exists i :: 0 <= i < |c| && c[i].playerId == p && !c[i].folded
  {
    PotAt(c, 0, k);
    EligibleIff(c, FloorOf(c, 0, k), p);
  }

  predicate Commits(c: seq<Contribution>, x: nat) {
    exists i :: 0 <= i < |c| && c[i].committed == x
  }

  /** A live contributor who has put in at least this much. */
  predicate LiveUpTo(c: seq<Contribution>, x: nat, p: PlayerId) {
    exists i :: 0 <= i < |c| && c[i].playerId == p && !c[i].folded && c[i].committed >= x
  }

  /** A pot from one level to the next: what everybody put in between, for the live players who reach its top. */
  ghost predicate PotSpans(c: seq<Contribution>, pot: Pot, low: nat, high: nat) {
    pot.amount == Between(c, low, high) && forall p :: p in pot.eligible <==> LiveUpTo(c, high, p)
  }

  /** The levels are the floor and then the distinct commitments above it, rising, with a pot between each two. */
  ghost predicate PotsSpan(c: seq<Contribution>, floor: nat, pots: seq<Pot>, levels: seq<nat>) {
    && |levels| == |pots| + 1 && levels[0] == floor
    && (forall k :: 0 <= k < |pots| ==> levels[k] < levels[k + 1] && PotSpans(c, pots[k], levels[k], levels[k + 1]))
    && forall x: nat :: x in levels <==> x == floor || (x > floor && Commits(c, x))
  }

  lemma FirstPotSpans(c: seq<Contribution>, floor: nat)
    requires floor < NextLevel(c, floor)
    ensures PotSpans(c, PotsAbove(c, floor)[0], floor, NextLevel(c, floor))
  {
    var level := NextLevel(c, floor);
    NextLevelIs(c, floor);
    BetweenSplits(c, floor, level);
    BetweenNothing(c, level, level);
    forall p
      ensures p in EligibleAbove(c, floor) <==> LiveUpTo(c, level, p)
    {
      EligibleIff(c, floor, p);
    }
  }

  lemma {:induction false} PotsSpanAbove(c: seq<Contribution>, floor: nat) returns (levels: seq<nat>)
    ensures PotsSpan(c, floor, PotsAbove(c, floor), levels)
    decreases CountAbove(c, floor)
  {
    NextLevelIs(c, floor);
    var level := NextLevel(c, floor);
    if level == floor {
      return [floor];
    }
    CountDrops(c, floor);
    var rest := PotsSpanAbove(c, level);
    FirstPotSpans(c, floor);
    levels := [floor] + rest;
    hide PotSpans, PotsAbove, CountAbove, NextLevel, Above;
    var pots := PotsAbove(c, floor);
    PotsStep(c, floor, []);
    assert pots == [pots[0]] + PotsAbove(c, level);
    LevelsExtend(c, floor, level, rest);
  }

  lemma LevelsExtend(c: seq<Contribution>, floor: nat, level: nat, rest: seq<nat>)
    requires floor < level == NextLevel(c, floor) && rest != [] && rest[0] == level
    requires forall x: nat :: x in rest <==> x == level || (x > level && Commits(c, x))
    ensures forall x: nat :: x in [floor] + rest <==> x == floor || (x > floor && Commits(c, x))
  {
    NextLevelIs(c, floor);
  }

  /**
   * One pot for each distinct commitment: with the commitments in rising order as levels, the k-th pot holds what
   * everybody put in between two neighbouring levels, and may be won by the live players who reach the upper one.
   */
  lemma OnePotEach(c: seq<Contribution>) returns (levels: seq<nat>)
    ensures PotsSpan(c, 0, PotsAbove(c, 0), levels)
  {
    levels := PotsSpanAbove(c, 0);
  }

  ghost predicate AllOwned(pots: seq<Pot>) {
    forall k :: 0 <= k < |pots| ==> pots[k].eligible != []
  }

  /** Every pot has someone to win it exactly when no folded commitment tops all live ones. */
  lemma AllOwnedIff(c: seq<Contribution>)
    ensures AllOwned(PotsAbove(c, 0)) <==> OrphanFree(c)
  {
    var pots := PotsAbove(c, 0);
    if OrphanFree(c) {
      forall k | 0 <= k < |pots|
        ensures pots[k].eligible != []
      {
        PotOwned(c, k);
      }
    }
    if j :| Over(c, j) {
      TopPotReached(c, 0, j);
      var k :| 0 <= k < |pots| && pots[k].eligible == [];
      assert !AllOwned(pots);
    }
  }

  lemma PotOwned(c: seq<Contribution>, k: nat)
    requires OrphanFree(c) && k < |PotsAbove(c, 0)|
    ensures PotsAbove(c, 0)[k].eligible != []
  {
    PotAt(c, 0, k);
    var f := FloorOf(c, 0, k);
    NextLevelIs(c, f);
    var j :| 0 <= j < |c| && Above(c[j], f);
    assert !Over(c, j);
    var i :| 0 <= i < |c| && !c[i].folded && c[i].committed >= c[j].committed;
    EligibleIff(c, f, c[i].playerId);
  }

  lemma {:induction false} TopPotReached(c: seq<Contribution>, floor: nat, j: int)
    requires Over(c, j) && floor < c[j].committed
    ensures exists k :: 0 <= k < |PotsAbove(c, floor)| && PotsAbove(c, floor)[k].eligible == []
    decreases CountAbove(c, floor)
  {
    NextLevelIs(c, floor);
    var level := NextLevel(c, floor);
    var pots := PotsAbove(c, floor);
    var e := EligibleAbove(c, floor);
    assert pots[1..] == PotsAbove(c, level);
    if e == [] {
      assert pots[0].eligible == [];
    } else {
      EligibleIff(c, floor, e[0]);
      var i :| 0 <= i < |c| && c[i].playerId == e[0] && !c[i].folded && Above(c[i], floor);
      assert level <= c[i].committed < c[j].committed;
      CountDrops(c, floor);
      TopPotReached(c, level, j);
      var k :| 0 <= k < |PotsAbove(c, level)| && PotsAbove(c, level)[k].eligible == [];
      assert pots[k + 1] == pots[1..][k];
    }
  }

  /** The return need not leave every pot an owner: with two folded contributors above the only live one, nobody may win the top pot. */
  lemma TwoOverOrphan()
    ensures var c := [Contribution(1, 10, true), Contribution(2, 10, true), Contribution(3, 5, false)];
      !OrphanFree(AfterReturn(c)) && !AllOwned(PotsAbove(AfterReturn(c), 0))
  {
    var c := [Contribution(1, 10, true), Contribution(2, 10, true), Contribution(3, 5, false)];
    assert Over(c, 0) && Over(c, 1);
    ReturnClearsOrphans(c);
    AllOwnedIff(AfterReturn(c));
  }

  // ---------------------------------------------------------------- rake and split

  /** A real in [0, 1] of a pot, rounded down, stays inside the pot. */
  lemma FloorInside(amount: nat, percent: real)
    requires 0.0 <= percent <= 1.0
    ensures 0 <= (amount as real * percent).Floor <= amount
  {
    var x := amount as real;
    assert 0.0 <= x * percent;
    assert x * (1.0 - percent) >= 0.0;
    assert x * percent == x - x * (1.0 - percent);
  }

  function Rake(amount: nat, percent: real, cap: nat): (rake: nat)
    requires 0.0 <= percent <= 1.0
    ensures rake <= amount && rake <= cap
  {
    if amount == 0 || percent <= 0.0 then 0
    else
      FloorInside(amount, percent);
      Min(cap, (amount as real * percent).Floor)
  }

  /** `takeRake`: as many whole chips as the percentage and the cap allow, and no fewer. */
  lemma RakeIsMost(amount: nat, percent: real, cap: nat, chips: nat)
    requires 0.0 <= percent <= 1.0
    ensures chips <= Rake(amount, percent, cap) <==> chips <= cap && chips as real <= amount as real * percent
  {
    FloorInside(amount, percent);
    var exact := amount as real * percent;
    assert percent <= 0.0 ==> percent == 0.0 && exact == 0.0;
    assert amount == 0 ==> exact == 0.0;
  }

  function TotalShares(shares: seq<PotShare>): nat {
    if shares == [] then 0 else shares[0].amount + TotalShares(shares[1..])
  }

  function ShareOf(amount: nat, n: nat, i: nat): nat
    requires 0 < n
  {
    amount / n + if i == 0 then amount % n else 0
  }

  function SplitPot(amount: nat, winners: seq<PlayerId>): seq<PotShare> {
    if winners == [] || amount == 0 then []
    else seq(|winners|, i requires 0 <= i < |winners| => PotShare(winners[i], ShareOf(amount, |winners|, i)))
  }

  lemma {:induction false} EqualShares(shares: seq<PotShare>, each: nat)
    requires forall i :: 0 <= i < |shares| ==> shares[i].amount == each
    ensures TotalShares(shares) == each * |shares|
  {
    if shares != [] {
      EqualShares(shares[1..], each);
      assert each * |shares| == each + each * |shares[1..]|;
    }
  }

  /** A split hands out the whole amount, and only to the winners. */
  lemma SplitTotal(amount: nat, winners: seq<PlayerId>)
    requires winners != []
    ensures TotalShares(SplitPot(amount, winners)) == amount
    ensures forall s :: s in SplitPot(amount, winners) ==> s.playerId in winners
  {
    var n := |winners|;
    var shares := SplitPot(amount, winners);
    if amount > 0 {
      assert amount == amount / n * n + amount % n;
      EqualShares(shares[1..], amount / n);
      assert amount / n + amount / n * (n - 1) == amount / n * n;
    }
  }

  /** Every winner is paid, in order; the first gets the odd chips and nobody else differs. */
  lemma SplitIsEven(amount: nat, winners: seq<PlayerId>, i: nat, j: nat)
    requires amount > 0 && i < j < |winners|
    ensures var shares := SplitPot(amount, winners);
      && |shares| == |winners| && shares[i].playerId == winners[i]
      && shares[j].amount <= shares[i].amount < shares[j].amount + |winners|
      && (i > 0 ==> shares[i].amount == shares[j].amount)
  {
  }

  // ---------------------------------------------------------------- the program's own form

  function InsertDesc(x: Contribution, s: seq<Contribution>): seq<Contribution> {
    if s == [] || x.committed >= s[0].committed then [x] + s else [s[0]] + InsertDesc(x, s[1..])
  }

  /** The stable descending sort by commitment. */
  function SortDesc(c: seq<Contribution>): (s: seq<Contribution>)
    ensures |s| == |c|
  {
    if c == [] then []
    else
      InsertLength(c[0], SortDesc(c[1..]));
      InsertDesc(c[0], SortDesc(c[1..]))
  }

  lemma {:induction false} InsertLength(x: Contribution, s: seq<Contribution>)
    ensures |InsertDesc(x, s)| == |s| + 1
  {
    if s != [] {
      InsertLength(x, s[1..]);
    }
  }

  /** Sorting brings the first largest commitment and its runner-up to the front. */
  lemma {:induction false} SortedFront(c: seq<Contribution>)
    requires c != []
    ensures SortDesc(c)[0] == c[TopIndex(c)]
    ensures |c| >= 2 ==> SortDesc(c)[1].committed == LargestOther(c, TopIndex(c))
  {
    if |c| >= 2 {
      var s := SortDesc(c[1..]);
      SortedFront(c[1..]);
      if c[0].committed >= s[0].committed {
      } else {
        SecondAfterInsert(c[0], s);
      }
    }
  }

  lemma SecondAfterInsert(x: Contribution, s: seq<Contribution>)
    requires s != [] && x.committed < s[0].committed
    ensures InsertDesc(x, s)[0] == s[0]
    ensures |InsertDesc(x, s)| >= 2
    ensures InsertDesc(x, s)[1].committed == if |s| == 1 then x.committed else Max(x.committed, s[1].committed)
  {
    assert InsertDesc(x, s) == [s[0]] + InsertDesc(x, s[1..]);
  }

  /** Linear search for a player's record. */
  method Find(contribs: array<Contribution>, id: PlayerId, ghost k: nat) returns (found: nat)
    requires k < contribs.Length && contribs[k].playerId == id && DistinctIds(contribs[..])
    ensures found == k
  {
    found := 0;
    while contribs[found].playerId != id
      invariant 0 <= found <= k
      decreases k - found
    {
      found := found + 1;
    }
    assert contribs[..][found].playerId == contribs[..][k].playerId;
  }

  /** Return chips that were never called, lowering the top commitment in place. */
  method ReturnUncalled(contribs: array<Contribution>) returns (returned: seq<PotShare>)
    requires DistinctIds(contribs[..])
    modifies contribs
    ensures contribs[..] == AfterReturn(old(contribs[..]))
    ensures returned == Refund(old(contribs[..]))
  {
    hide SortDesc, TopIndex, LargestOther, DistinctIds;
    ghost var before := contribs[..];
    if contribs.Length == 0 {
      return [];
    }
    var sorted := SortDesc(contribs[..]);
    SortedFront(before);
    var top := sorted[0];
    var second := if |sorted| > 1 then sorted[1].committed else 0;
    if top.committed <= second {
      return [];
    }
    var extra := top.committed - second;
    ghost var k := TopIndex(before);
    assert before[k] == contribs[k] == top;
    var original := Find(contribs, top.playerId, k);
    contribs[original] := contribs[original].(committed := top.committed - extra);
    returned := [PotShare(top.playerId, extra)];
  }

  function Positive(c: seq<Contribution>): seq<Contribution> {
    if c == [] then []
    else (if c[0].committed > 0 then [c[0]] else []) + Positive(c[1..])
  }

  function Lowered(x: Contribution, floor: nat): Contribution {
    x.(committed := Excess(x.committed, floor))
  }

  lemma {:induction false} PositiveKeeps(c: seq<Contribution>, floor: nat)
    ensures CountAbove(Positive(c), floor) == CountAbove(c, floor)
    ensures EligibleAbove(Positive(c), floor) == EligibleAbove(c, floor)
    ensures NextLevel(Positive(c), floor) == NextLevel(c, floor)
  {
    if c != [] {
      PositiveKeeps(c[1..], floor);
      if c[0].committed > 0 {
        assert Positive(c)[1..] == Positive(c[1..]);
      } else {
        assert Positive(c) == Positive(c[1..]);
      }
    }
  }

  lemma {:induction false} PositivePots(c: seq<Contribution>, floor: nat)
    ensures PotsAbove(Positive(c), floor) == PotsAbove(c, floor)
    decreases CountAbove(c, floor)
  {
    PositiveKeeps(c, floor);
    if floor < NextLevel(c, floor) {
      CountDrops(c, floor);
      PositivePots(c, NextLevel(c, floor));
    }
  }

  lemma {:induction false} CountSplit(c: seq<Contribution>, floor: nat, i: nat)
    requires i < |c|
    ensures c[..i + 1] == c[..i] + [c[i]]
    ensures CountAbove(c[..i + 1], floor) == CountAbove(c[..i], floor) + if Above(c[i], floor) then 1 else 0
    ensures EligibleAbove(c[..i + 1], floor) ==
            EligibleAbove(c[..i], floor) + if Above(c[i], floor) && !c[i].folded then [c[i].playerId] else []
  {
    if i == 0 {
      assert c[..1] == [c[0]] && c[..0] == [];
      assert c[..1][1..] == [];
    } else {
      CountSplit(c[1..], floor, i - 1);
      assert c[..i + 1][1..] == c[1..][..i];
      assert c[..i][1..] == c[1..][..i - 1];
    }
  }

  lemma LoweredLevel(c: seq<Contribution>, low: seq<Contribution>, floor: nat)
    requires |low| == |c| && forall i :: 0 <= i < |c| ==> low[i] == Lowered(c[i], floor)
    ensures NextLevel(low, 0) == NextLevel(c, floor) - floor
  {
    NextLevelIs(c, floor);
    NextLevelIs(low, 0);
    var level := NextLevel(c, floor);
    var least := NextLevel(low, 0);
    if level == floor {
      assert forall i :: 0 <= i < |c| ==> !Above(c[i], floor);
    } else {
      var i :| 0 <= i < |c| && c[i].committed == level;
      assert Above(low[i], 0);
      var j :| 0 <= j < |low| && low[j].committed == least;
      assert Above(c[j], floor);
    }
  }

  lemma NothingAbove(height: nat, floor: nat)
    ensures Slice(height, CountAbove([], floor)) == 0 && EligibleAbove([], floor) == []
  {
  }

  /** One pass of the construction: peel the lowest remaining commitment off every active contributor. */
  method PeelLevel(remaining: array<Contribution>, ghost start: seq<Contribution>, ghost floor: nat) returns (pot: Pot)
    requires remaining.Length == |start|
    requires forall i :: 0 <= i < |start| ==> remaining[i] == Lowered(start[i], floor)
    requires floor < NextLevel(start, floor)
    modifies remaining
    ensures forall i :: 0 <= i < |start| ==> remaining[i] == Lowered(start[i], NextLevel(start, floor))
    ensures pot == Pot(Slice(NextLevel(start, floor) - floor, CountAbove(start, floor)), EligibleAbove(start, floor))
  {
    hide CountAbove, EligibleAbove, Slice, NextLevel;
    LoweredLevel(start, remaining[..], floor);
    NextLevelIs(start, floor);
    ghost var next := NextLevel(start, floor);
    var level := NextLevel(remaining[..], 0);
    var amount, eligible := 0, [];
    NothingAbove(level, floor);
    assert start[..0] == [];
    for i := 0 to remaining.Length
      invariant forall k :: 0 <= k < i ==> remaining[k] == Lowered(start[k], next)
      invariant forall k :: i <= k < |start| ==> remaining[k] == Lowered(start[k], floor)
      invariant amount == Slice(level, CountAbove(start[..i], floor))
      invariant eligible == EligibleAbove(start[..i], floor)
    {
      CountSplit(start, floor, i);
      assert Above(start[i], floor) ==> next <= start[i].committed;
      if remaining[i].committed > 0 {
        SliceMore(level, CountAbove(start[..i], floor));
        amount := amount + level;
        remaining[i] := remaining[i].(committed := remaining[i].committed - level);
        if !remaining[i].folded {
          eligible := eligible + [remaining[i].playerId];
        }
      }
    }
    assert start[..|start|] == start;
    pot := Pot(amount, eligible);
  }

  lemma PotsStep(c: seq<Contribution>, floor: nat, pots: seq<Pot>)
    ensures floor < NextLevel(c, floor) ==>
      var pot := Pot(Slice(NextLevel(c, floor) - floor, CountAbove(c, floor)), EligibleAbove(c, floor));
      pots + PotsAbove(c, floor) == pots + [pot] + PotsAbove(c, NextLevel(c, floor))
    ensures floor >= NextLevel(c, floor) ==> pots + PotsAbove(c, floor) == pots
  {
    hide CountAbove, EligibleAbove, NextLevel, Above;
    NextLevelIs(c, floor);
  }

  /** Side pots from the committed chips, one pass for each level still unpaid. */
  method BuildPots(contribs: seq<Contribution>) returns (pots: seq<Pot>)
    ensures pots == PotsAbove(contribs, 0)
  {
    hide CountAbove, EligibleAbove, Slice, NextLevel, Positive, Above, PotsAbove;
    var start := Positive(contribs);
    PositivePots(contribs, 0);
    var remaining := new Contribution[|start|](i requires 0 <= i < |start| => start[i]);
    pots := [];
    ghost var floor := 0;
    while exists i :: 0 <= i < remaining.Length && remaining[i].committed > 0
      invariant forall i :: 0 <= i < |start| ==> remaining[i] == Lowered(start[i], floor)
      invariant pots + PotsAbove(start, floor) == PotsAbove(start, 0)
      decreases CountAbove(start, floor)
    {
      StillUnpaid(start, remaining[..], floor);
      PotsStep(start, floor, pots);
      var pot := PeelLevel(remaining, start, floor);
      CountDrops(start, floor);
      pots := pots + [pot];
      floor := NextLevel(start, floor);
    }
    StillUnpaid(start, remaining[..], floor);
    PotsStep(start, floor, pots);
  }

  lemma StillUnpaid(c: seq<Contribution>, low: seq<Contribution>, floor: nat)
    requires |low| == |c| && forall i :: 0 <= i < |c| ==> low[i] == Lowered(c[i], floor)
    ensures (exists i :: 0 <= i < |low| && low[i].committed > 0) <==> floor < NextLevel(c, floor)
  {
    NextLevelIs(c, floor);
    assert forall i :: 0 <= i < |c| ==> (low[i].committed > 0 <==> Above(c[i], floor));
  }

  lemma SliceMore(height: nat, n: nat)
    ensures Slice(height, n + 1) == Slice(height, n) + height
  {
  }
}
