/** The value of seven cards: the best of every five of them. */
module BestOfSeven {
  import opened Common
  import opened Cards
  import opened PokerHands
  import opened Evaluator

  // ---------------------------------------------------------------- the combinations

  /** Five increasing positions out of seven. */
  datatype Combo = Combo(a: nat, b: nat, c: nat, d: nat, e: nat)

  predicate IsCombo(t: Combo) {
    t.a < t.b < t.c < t.d < t.e < 7
  }

  /** Lexicographic order on positions. */
  predicate Earlier(t: Combo, a: nat, b: nat, c: nat, d: nat, e: nat) {
    t.a < a || (t.a == a && (t.b < b || (t.b == b && (t.c < c || (t.c == c && (t.d < d || (t.d == d && t.e < e)))))))
  }

  /** The list holds exactly the combinations before a position, each once. */
  ghost predicate Lists(combos: seq<Combo>, a: nat, b: nat, c: nat, d: nat, e: nat) {
    && (forall i, j :: 0 <= i < j < |combos| ==> combos[i] != combos[j])
    && forall t :: t in combos <==> IsCombo(t) && Earlier(t, a, b, c, d, e)
  }

  lemma ListsNext(combos: seq<Combo>, t: Combo)
    requires IsCombo(t) && Lists(combos, t.a, t.b, t.c, t.d, t.e)
    ensures Lists(combos + [t], t.a, t.b, t.c, t.d, t.e + 1)
  {
  }

  /** COMBOS_7: the nested loops enumerate each five-subset of seven positions exactly once. */
  method BuildCombos() returns (combos: seq<Combo>)
    ensures forall i, j :: 0 <= i < j < |combos| ==> combos[i] != combos[j]
    ensures forall t :: t in combos <==> IsCombo(t)
  {
    combos := [];
    for a := 0 to 7
      invariant Lists(combos, a, a + 1, a + 2, a + 3, a + 4)
    {
      for b := a + 1 to 7
        invariant Lists(combos, a, b, b + 1, b + 2, b + 3)
      {
        for c := b + 1 to 7
          invariant Lists(combos, a, b, c, c + 1, c + 2)
        {
          for d := c + 1 to 7
            invariant Lists(combos, a, b, c, d, d + 1)
          {
            combos := LastLoop(combos, a, b, c, d);
          }
        }
      }
    }
  }

  method LastLoop(before: seq<Combo>, a: nat, b: nat, c: nat, d: nat) returns (combos: seq<Combo>)
    requires a < b < c < d < 7 && Lists(before, a, b, c, d, d + 1)
    ensures Lists(combos, a, b, c, d, 7)
  {
    combos := before;
    for e := d + 1 to 7
      invariant Lists(combos, a, b, c, d, e)
    {
      ListsNext(combos, Combo(a, b, c, d, e));
      combos := combos + [Combo(a, b, c, d, e)];
    }
  }

  // ---------------------------------------------------------------- the best five

  function Pick(cards: seq<Card>, t: Combo): (five: seq<Card>)
    requires |cards| == 7 && IsCombo(t)
    ensures |five| == 5
  {
    [cards[t.a], cards[t.b], cards[t.c], cards[t.d], cards[t.e]]
  }

  /** v is the value of the best five cards: some five attain it and no five beat it. */
  ghost predicate IsBest(cards: seq<Card>, v: nat) {
    && (exists five :: |five| == 5 && multiset(five) <= multiset(cards) && FiveValue(five) == v)
    && forall five :: |five| == 5 && multiset(five) <= multiset(cards) ==> FiveValue(five) <= v
  }

  ghost predicate Increasing(idx: seq<nat>, lo: nat, hi: nat) {
    && (forall i :: 0 <= i < |idx| ==> lo <= idx[i] < hi)
    && forall i, j :: 0 <= i < j < |idx| ==> idx[i] < idx[j]
  }

  function Select(cards: seq<Card>, idx: seq<nat>): seq<Card>
    requires forall i :: 0 <= i < |idx| ==> idx[i] < |cards|
  {
    if idx == [] then [] else [cards[idx[0]]] + Select(cards, idx[1..])
  }

  lemma TailInside(cards: seq<Card>, lo: nat, i: nat)
    requires lo <= i < |cards|
    ensures multiset{cards[i]} + multiset(cards[i + 1..]) <= multiset(cards[lo..])
  {
    assert cards[lo..] == cards[lo..i] + ([cards[i]] + cards[i + 1..]);
    assert multiset([cards[i]] + cards[i + 1..]) == multiset{cards[i]} + multiset(cards[i + 1..]);
  }

  lemma SelectNothing(cards: seq<Card>)
    ensures Select(cards, []) == []
  {
  }

  lemma {:induction false} SelectInside(cards: seq<Card>, lo: nat, idx: seq<nat>)
    requires lo <= |cards| && Increasing(idx, lo, |cards|)
    ensures multiset(Select(cards, idx)) <= multiset(cards[lo..])
    decreases |idx|
  {
    hide Select;
    SelectNothing(cards);
    if idx != [] {
      var i := idx[0];
      SelectInside(cards, i + 1, idx[1..]);
      TailInside(cards, lo, i);
      SelectFront(cards, i, idx[1..]);
      assert [i] + idx[1..] == idx;
    }
  }

  lemma SelectFront(cards: seq<Card>, lo: nat, rest: seq<nat>)
    requires lo < |cards| && Increasing(rest, lo + 1, |cards|)
    ensures Increasing([lo] + rest, lo, |cards|)
    ensures multiset(Select(cards, [lo] + rest)) == multiset{cards[lo]} + multiset(Select(cards, rest))
  {
  }

  lemma TakeOne(cards: seq<Card>, lo: nat, m: multiset<Card>)
    requires lo < |cards| && m <= multiset(cards[lo..])
    ensures var c := cards[lo]; var rest := multiset(cards[lo + 1..]);
      if c in m then m - multiset{c} <= rest && multiset{c} + (m - multiset{c}) == m else m <= rest
  {
    assert cards[lo..] == [cards[lo]] + cards[lo + 1..];
  }

  /** Any sub-collection of the cards sits at some increasing positions. */
  lemma {:induction false} Locate(cards: seq<Card>, lo: nat, m: multiset<Card>) returns (idx: seq<nat>)
    requires lo <= |cards| && m <= multiset(cards[lo..])
    ensures Increasing(idx, lo, |cards|) && multiset(Select(cards, idx)) == m
    decreases |cards| - lo
  {
    hide Select;
    if lo == |cards| {
      idx := [];
      assert m == multiset{};
      SelectNothing(cards);
    } else {
      TakeOne(cards, lo, m);
      if cards[lo] in m {
        var rest := Locate(cards, lo + 1, m - multiset{cards[lo]});
        SelectFront(cards, lo, rest);
        idx := [lo] + rest;
      } else {
        idx := Locate(cards, lo + 1, m);
      }
    }
  }

  lemma {:induction false} SelectLength(cards: seq<Card>, idx: seq<nat>)
    requires forall i :: 0 <= i < |idx| ==> idx[i] < |cards|
    ensures |multiset(Select(cards, idx))| == |idx|
  {
    if idx != [] {
      SelectLength(cards, idx[1..]);
    }
  }

  lemma PickInside(cards: seq<Card>, t: Combo)
    requires |cards| == 7 && IsCombo(t)
    ensures multiset(Pick(cards, t)) <= multiset(cards)
  {
    var idx := [t.a, t.b, t.c, t.d, t.e];
    FiveSelected(cards, idx);
    SelectInside(cards, 0, idx);
    assert cards[0..] == cards;
  }

  lemma FiveSelected(cards: seq<Card>, idx: seq<nat>)
    requires |cards| == 7 && |idx| == 5 && Increasing(idx, 0, 7)
    ensures IsCombo(Combo(idx[0], idx[1], idx[2], idx[3], idx[4]))
    ensures Select(cards, idx) == Pick(cards, Combo(idx[0], idx[1], idx[2], idx[3], idx[4]))
  {
    var r1 := idx[1..];
    var r2 := r1[1..];
    var r3 := r2[1..];
    var r4 := r3[1..];
    assert r4 == [idx[4]] && r4[1..] == [];
    assert Select(cards, r4) == [cards[idx[4]]];
    assert Select(cards, r3) == [cards[idx[3]], cards[idx[4]]];
    assert Select(cards, r2) == [cards[idx[2]], cards[idx[3]], cards[idx[4]]];
    assert Select(cards, r1) == [cards[idx[1]], cards[idx[2]], cards[idx[3]], cards[idx[4]]];
  }

  /** Any five of the seven cards are, up to order, picked by some combination. */
  lemma EveryFivePicked(cards: seq<Card>, five: seq<Card>) returns (t: Combo)
    requires |cards| == 7 && |five| == 5 && multiset(five) <= multiset(cards)
    ensures IsCombo(t) && FiveValue(Pick(cards, t)) == FiveValue(five)
  {
    assert cards[0..] == cards;
    var idx := Locate(cards, 0, multiset(five));
    SelectLength(cards, idx);
    FiveSelected(cards, idx);
    t := Combo(idx[0], idx[1], idx[2], idx[3], idx[4]);
    FiveValuePermutes(five, Pick(cards, t));
  }

  /** `evaluateSeven`: the maximum over the 21 combinations is the value of the best five cards. */
  method EvaluateSeven(cards: seq<Card>) returns (best: Option<nat>)
    ensures best.None? <==> |cards| != 7
    ensures best.Some? ==> IsBest(cards, best.value)
  {
    hide FiveValue, IsBest, Pick;
    if |cards| != 7 {
      return None;
    }
    var combos := BuildCombos();
    assert Combo(0, 1, 2, 3, 4) in combos;
    var top := 0;
    for i := 0 to |combos|
      invariant forall j :: 0 <= j < i ==> IsCombo(combos[j]) && FiveValue(Pick(cards, combos[j])) <= top
      invariant top == 0 || exists j :: 0 <= j < i && IsCombo(combos[j]) && FiveValue(Pick(cards, combos[j])) == top
    {
      assert combos[i] in combos;
      var v := EvaluateFive(Pick(cards, combos[i]));
      if v.value > top {
        top := v.value;
      }
    }
    MaximumIsBest(cards, combos, top);
    return Some(top);
  }

  lemma MaximumIsBest(cards: seq<Card>, combos: seq<Combo>, top: nat)
    requires |cards| == 7 && (forall t :: t in combos <==> IsCombo(t))
    requires forall j :: 0 <= j < |combos| ==> IsCombo(combos[j]) && FiveValue(Pick(cards, combos[j])) <= top
    requires top == 0 || exists j :: 0 <= j < |combos| && IsCombo(combos[j]) && FiveValue(Pick(cards, combos[j])) == top
    ensures IsBest(cards, top)
  {
    hide FiveValue, Pick;
    var first := Combo(0, 1, 2, 3, 4);
    assert first in combos;
    var h :| 0 <= h < |combos| && combos[h] == first;
    if top == 0 {
      PickInside(cards, first);
      assert FiveValue(Pick(cards, first)) == top;
    } else {
      var j :| 0 <= j < |combos| && IsCombo(combos[j]) && FiveValue(Pick(cards, combos[j])) == top;
      PickInside(cards, combos[j]);
    }
    forall five | |five| == 5 && multiset(five) <= multiset(cards)
      ensures FiveValue(five) <= top
    {
      var t := EveryFivePicked(cards, five);
      assert t in combos;
      var j :| 0 <= j < |combos| && combos[j] == t;
    }
  }

  /** The best value is unique and does not depend on the order of the cards. */
  lemma BestIsUnique(cards: seq<Card>, again: seq<Card>, v: nat, w: nat)
    requires multiset(cards) == multiset(again) && IsBest(cards, v) && IsBest(again, w)
    ensures v == w
  {
  }

  /** The best of the fives drawn from the remaining cards, completing the chosen ones. */
  function BestFrom(cards: seq<Card>, chosen: seq<Card>): nat
    requires |chosen| <= 5
    decreases |cards|
  {
    if |chosen| == 5 then FiveValue(chosen)
    else if cards == [] then 0
    else Max(BestFrom(cards[1..], chosen + [cards[0]]), BestFrom(cards[1..], chosen))
  }

  lemma {:induction false} BestFromBounds(cards: seq<Card>, chosen: seq<Card>, five: seq<Card>)
    requires |chosen| <= 5 && |five| == 5
    requires multiset(chosen) <= multiset(five) <= multiset(chosen) + multiset(cards)
    ensures FiveValue(five) <= BestFrom(cards, chosen)
    decreases |cards|
  {
    if |chosen| == 5 {
      SameSize(chosen, five);
      FiveValuePermutes(chosen, five);
    } else if cards == [] {
      FewerCards(multiset(five), multiset(chosen));
    } else {
      assert cards == [cards[0]] + cards[1..];
      if multiset(chosen) + multiset{cards[0]} <= multiset(five) {
        BestFromBounds(cards[1..], chosen + [cards[0]], five);
      } else {
        assert multiset(five) <= multiset(chosen) + multiset(cards[1..]);
        BestFromBounds(cards[1..], chosen, five);
      }
    }
  }

  lemma FewerCards(a: multiset<Card>, b: multiset<Card>)
    requires a <= b
    ensures |a| <= |b|
  {
    assert b == a + (b - a);
  }

  lemma SameSize(a: seq<Card>, b: seq<Card>)
    requires |a| == |b| && multiset(a) <= multiset(b)
    ensures multiset(a) == multiset(b)
  {
    var rest := multiset(b) - multiset(a);
    assert multiset(b) == multiset(a) + rest;
    assert |rest| == 0;
  }

  lemma {:induction false} BestFromAttained(cards: seq<Card>, chosen: seq<Card>) returns (five: seq<Card>)
    requires |chosen| <= 5 <= |chosen| + |cards|
    ensures |five| == 5 && multiset(five) <= multiset(chosen) + multiset(cards)
    ensures FiveValue(five) == BestFrom(cards, chosen)
    decreases |cards|
  {
    if |chosen| == 5 {
      five := chosen;
    } else {
      assert cards == [cards[0]] + cards[1..];
      five := BestFromAttained(cards[1..], chosen + [cards[0]]);
      if |chosen| + |cards[1..]| >= 5 {
        var other := BestFromAttained(cards[1..], chosen);
        if FiveValue(other) > FiveValue(five) {
          five := other;
        }
      } else {
        TooFew(cards[1..], chosen);
      }
    }
  }

  lemma {:induction false} TooFew(cards: seq<Card>, chosen: seq<Card>)
    requires |chosen| + |cards| < 5
    ensures BestFrom(cards, chosen) == 0
    decreases |cards|
  {
    if cards != [] {
      TooFew(cards[1..], chosen + [cards[0]]);
      TooFew(cards[1..], chosen);
    }
  }

  /** The value of two hole cards and five board cards, as a function. */
  function HoldemValue(hole: seq<Card>, board: seq<Card>): nat {
    BestFrom(hole + board, [])
  }

  /** It is the value of the best five cards of hole and board. */
  lemma HoldemValueIsBest(hole: seq<Card>, board: seq<Card>)
    requires |hole| + |board| >= 5
    ensures IsBest(hole + board, HoldemValue(hole, board))
  {
    var cards := hole + board;
    var five := BestFromAttained(cards, []);
    forall f | |f| == 5 && multiset(f) <= multiset(cards)
      ensures FiveValue(f) <= HoldemValue(hole, board)
    {
      BestFromBounds(cards, [], f);
    }
  }

  /** `evaluateHoldem`: refuses other than two hole cards and five board cards. */
  method EvaluateHoldem(hole: seq<Card>, board: seq<Card>) returns (value: Option<nat>)
    ensures value == if |hole| == 2 && |board| == 5 then Some(HoldemValue(hole, board)) else None
  {
    if |hole| != 2 || |board| != 5 {
      return None;
    }
    value := EvaluateSeven(hole + board);
    HoldemValueIsBest(hole, board);
    BestIsUnique(hole + board, hole + board, value.value, HoldemValue(hole, board));
  }

  /** Some five of the second cards beat every five of the first. */
  ghost predicate Outclassed(cards: seq<Card>, others: seq<Card>) {
    exists five :: IsHand(five) && multiset(five) <= multiset(others) && BeatsAllOf(five, cards)
  }

  ghost predicate BeatsAllOf(five: seq<Card>, cards: seq<Card>) {
    forall f :: IsHand(f) && multiset(f) <= multiset(cards) ==> Loses(f, five)
  }

  /** Comparing seven-card values is comparing best five-card hands, as poker does. */
  lemma ValueOrderIsPoker(cards: seq<Card>, others: seq<Card>, v: nat, w: nat)
    requires Distinct(cards) && Distinct(others) && IsBest(cards, v) && IsBest(others, w)
    ensures v < w <==> Outclassed(cards, others)
  {
    hide FiveValue, Loses, Distinct;
    var top :| |top| == 5 && multiset(top) <= multiset(others) && FiveValue(top) == w;
    var own :| |own| == 5 && multiset(own) <= multiset(cards) && FiveValue(own) == v;
    SubDistinct(top, others);
    SubDistinct(own, cards);
    if v < w {
      forall f | IsHand(f) && multiset(f) <= multiset(cards)
        ensures Loses(f, top)
      {
        FiveValueOrder(f, top);
      }
      assert BeatsAllOf(top, cards);
    }
    if five :| IsHand(five) && multiset(five) <= multiset(others) && BeatsAllOf(five, cards) {
      assert Loses(own, five);
      FiveValueOrder(own, five);
    }
  }

  /** Five cards taken from different cards are different. */
  lemma SubDistinct(five: seq<Card>, cards: seq<Card>)
    requires multiset(five) <= multiset(cards) && Distinct(cards)
    ensures Distinct(five)
  {
    forall i, j | 0 <= i < j < |five|
      ensures five[i] != five[j]
    {
      if five[i] == five[j] {
        assert five == five[..i] + [five[i]] + five[i + 1..j] + [five[j]] + five[j + 1..];
        assert multiset(five)[five[i]] >= 2;
        OneCopy(cards, five[i]);
      }
    }
  }

  lemma {:induction false} OneCopy(cards: seq<Card>, c: Card)
    requires Distinct(cards)
    ensures multiset(cards)[c] <= 1
  {
    if cards != [] {
      assert cards == [cards[0]] + cards[1..];
      OneCopy(cards[1..], c);
      if cards[0] == c {
        assert c !in cards[1..];
      }
    }
  }
}
