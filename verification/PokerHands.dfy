/** What makes one five-card hand beat another, stated without reference to any algorithm. */
module PokerHands {
  import opened Common
  import opened Cards
  import opened HandPacking

  // ---------------------------------------------------------------- ranks with multiplicity

  function Bag(h: seq<Card>): multiset<int> {
    if h == [] then multiset{} else multiset{h[0].rank} + Bag(h[1..])
  }

  /** A hand: five different cards. */
  ghost predicate IsHand(h: seq<Card>) {
    |h| == 5 && Distinct(h)
  }

  lemma {:induction false} BagMember(h: seq<Card>, r: int)
    ensures r in Bag(h) <==> exists i :: 0 <= i < |h| && h[i].rank == r
    ensures |Bag(h)| == |h|
  {
    if h != [] {
      BagMember(h[1..], r);
      assert forall i :: 0 < i < |h| ==> h[i] == h[1..][i - 1];
      if i :| 0 <= i < |h[1..]| && h[1..][i].rank == r {
        assert h[i + 1].rank == r;
      }
    }
  }

  lemma {:induction false} BagRemove(h: seq<Card>, j: nat)
    requires j < |h|
    ensures Bag(h) == multiset{h[j].rank} + Bag(h[..j] + h[j + 1..])
  {
    if j == 0 {
      assert h[..0] + h[1..] == h[1..];
    } else {
      BagRemove(h[1..], j - 1);
      assert (h[..j] + h[j + 1..])[1..] == h[1..][..j - 1] + h[1..][j..];
    }
  }

  lemma WithoutOne(k: seq<Card>, j: nat)
    requires j < |k|
    ensures multiset(k[..j] + k[j + 1..]) == multiset(k) - multiset{k[j]}
  {
    assert k == k[..j] + [k[j]] + k[j + 1..];
  }

  lemma PlaceOf(k: seq<Card>, c: Card, all: multiset<Card>) returns (j: nat)
    requires multiset(k) == all && c in all
    ensures j < |k| && k[j] == c
  {
    j :| 0 <= j < |k| && k[j] == c;
  }

  lemma WithoutFirst(h: seq<Card>)
    requires h != []
    ensures multiset(h[1..]) == multiset(h) - multiset{h[0]}
  {
    assert h == [h[0]] + h[1..];
  }

  /** The place in k of a card of h, and the rest of both. */
  lemma SameRest(h: seq<Card>, k: seq<Card>) returns (j: nat)
    requires multiset(h) == multiset(k) && h != []
    ensures j < |k| && k[j] == h[0] && multiset(h[1..]) == multiset(k[..j] + k[j + 1..])
  {
    j := PlaceOf(k, h[0], multiset(h));
    WithoutFirst(h);
    WithoutOne(k, j);
  }

  /** The order of the cards is immaterial to their ranks. */
  lemma {:induction false} BagPermutes(h: seq<Card>, k: seq<Card>)
    requires multiset(h) == multiset(k)
    ensures Bag(h) == Bag(k)
  {
    if h == [] {
      assert |multiset(k)| == 0;
    } else {
      var j := SameRest(h, k);
      BagPermutes(h[1..], k[..j] + k[j + 1..]);
      BagRemove(k, j);
    }
  }

  // ---------------------------------------------------------------- the categories

  ghost predicate IsFlush(h: seq<Card>) {
    forall i, j :: 0 <= i < |h| && 0 <= j < |h| ==> h[i].suit == h[j].suit
  }

  /** Five consecutive ranks with the given top, the ace also counting below the deuce in the wheel. */
  ghost predicate StraightTop(b: multiset<int>, top: int) {
    if top == 3 then forall r :: r in b <==> r in {12, 0, 1, 2, 3}
    else 4 <= top <= 12 && forall r :: r in b <==> top - 4 <= r <= top
  }

  ghost predicate IsStraight(b: multiset<int>) {
    exists top :: StraightTop(b, top)
  }

  ghost predicate OfAKind(b: multiset<int>, n: nat) {
    exists r :: r in b && b[r] == n
  }

  ghost predicate TwoPairs(b: multiset<int>) {
    exists r, s :: r in b && s in b && r != s && b[r] == 2 && b[s] == 2
  }

  /** The rank of a hand's category, from high card (0) to straight flush (8). */
  ghost function Category(h: seq<Card>): nat {
    var b := Bag(h);
    if IsFlush(h) && IsStraight(b) then 8
    else if OfAKind(b, 4) then 7
    else if OfAKind(b, 3) && OfAKind(b, 2) then 6
    else if IsFlush(h) then 5
    else if IsStraight(b) then 4
    else if OfAKind(b, 3) then 3
    else if TwoPairs(b) then 2
    else if OfAKind(b, 2) then 1
    else 0
  }

  /** Rank r weighs more than rank s: it occurs more often, or as often and is higher. */
  predicate Outranks(b: multiset<int>, r: int, s: int) {
    b[r] > b[s] || (b[r] == b[s] && r > s)
  }

  /** The ranks of a bag, each once, in order of multiplicity and then of rank. */
  ghost predicate IsRanking(b: multiset<int>, v: seq<nat>) {
    && (forall r: nat :: r in v <==> r in b)
    && forall i, j :: 0 <= i < j < |v| ==> Outranks(b, v[i], v[j])
  }

  /** The tie-break of a hand: a straight's top, otherwise its ranks by multiplicity and rank. */
  ghost predicate IsTieBreak(h: seq<Card>, v: seq<nat>) {
    if Category(h) == 8 || Category(h) == 4 then |v| == 1 && StraightTop(Bag(h), v[0])
    else IsRanking(Bag(h), v)
  }

  /** Hand h loses to hand k: a lower category, or the same with a lower tie-break. */
  ghost predicate Loses(h: seq<Card>, k: seq<Card>) {
    || Category(h) < Category(k)
    || (Category(h) == Category(k)
        && exists v, w :: |v| == |w| && IsTieBreak(h, v) && IsTieBreak(k, w) && LexLess(v, w))
  }

  lemma StraightTopUnique(b: multiset<int>, s: int, t: int)
    requires StraightTop(b, s) && StraightTop(b, t)
    ensures s == t
  {
    var probes := [s in b, t in b, s - 4 in b, t - 4 in b, 12 in b, 0 in b];
  }

  lemma BothEmpty(v: seq<nat>, w: seq<nat>)
    requires forall r: nat :: r in v <==> r in w
    ensures v == [] <==> w == []
  {
    if v != [] {
      assert v[0] in v;
    }
    if w != [] {
      assert w[0] in w;
    }
  }

  /** A ranking is unique: two strictly ordered lists of the same ranks are the same list. */
  lemma {:induction false} RankingUnique(b: multiset<int>, v: seq<nat>, w: seq<nat>)
    requires forall r: nat :: r in v <==> r in w
    requires forall i, j :: 0 <= i < j < |v| ==> Outranks(b, v[i], v[j])
    requires forall i, j :: 0 <= i < j < |w| ==> Outranks(b, w[i], w[j])
    ensures v == w
    decreases |v|
  {
    BothEmpty(v, w);
    if v != [] {
      assert v[0] in w && w[0] in v;
      var i :| 0 <= i < |w| && w[i] == v[0];
      var j :| 0 <= j < |v| && v[j] == w[0];
      assert v[0] == w[0];
      forall r: nat
        ensures r in v[1..] <==> r in w[1..]
      {
        TailMember(v, r, b);
        TailMember(w, r, b);
      }
      RankingUnique(b, v[1..], w[1..]);
      assert v == [v[0]] + v[1..] && w == [w[0]] + w[1..];
    }
  }

  lemma TailMember(v: seq<nat>, r: nat, b: multiset<int>)
    requires v != [] && forall i, j :: 0 <= i < j < |v| ==> Outranks(b, v[i], v[j])
    ensures r in v[1..] <==> r in v && r != v[0]
  {
  }

  /** A hand has at most one tie-break. */
  lemma TieBreakUnique(h: seq<Card>, v: seq<nat>, w: seq<nat>)
    requires IsTieBreak(h, v) && IsTieBreak(h, w)
    ensures v == w
  {
    if Category(h) == 8 || Category(h) == 4 {
      StraightTopUnique(Bag(h), v[0], w[0]);
    } else {
      RankingUnique(Bag(h), v, w);
    }
  }
}
