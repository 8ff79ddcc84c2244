/** Tournament prizes. Shares are exact: the program's floating-point arithmetic is taken over the reals. */
module Payouts {
  import opened Common

  datatype Prize = Prize(player: Option<PlayerId>, place: nat, chips: int, points: nat)

  /** How many places are paid. */
  function PaidPlaces(field: nat): (places: nat)
    ensures 1 <= places && (field > 0 ==> places <= field)
  {
    if field <= 2 then 1
    else if field <= 6 then 2
    else if field <= 9 then 3
    else Max(3, field * 15 / 100)
  }

  /** The sum of 1, 1/2, ..., 1/n. */
  function Harmonic(n: nat): (h: real)
    ensures h >= 0.0 && (n > 0 ==> h > 0.0)
  {
    if n == 0 then 0.0 else Harmonic(n - 1) + 1.0 / (n as real)
  }

  /** The share of the i-th place out of `places`, counting from 0. */
  function Share(places: nat, i: nat): (s: real)
    requires i < places
    ensures s > 0.0
  {
    (1.0 / ((i + 1) as real)) / Harmonic(places)
  }

  /** The shares of the first k places together. */
  function ShareSum(places: nat, k: nat): real
    requires k <= places
  {
    if k == 0 then 0.0 else ShareSum(places, k - 1) + Share(places, k - 1)
  }

  lemma {:induction false} ShareSumIs(places: nat, k: nat)
    requires k <= places && 0 < places
    ensures ShareSum(places, k) == Harmonic(k) / Harmonic(places)
  {
    if k > 0 {
      ShareSumIs(places, k - 1);
    }
  }

  /** The shares are positive, fall from place to place, and make up the whole pool. */
  lemma SharesMakeWhole(places: nat)
    requires 0 < places
    ensures ShareSum(places, places) == 1.0
    ensures forall i, j :: 0 <= i < j < places ==> Share(places, i) > Share(places, j)
  {
    ShareSumIs(places, places);
    OwnQuotient(Harmonic(places));
    hide Share;
    forall i, j | 0 <= i < j < places
      ensures Share(places, i) > Share(places, j)
    {
      ShareFalls(places, i, j);
    }
  }

  lemma OwnQuotient(h: real)
    requires h > 0.0
    ensures h / h == 1.0
  {
  }

  lemma ShareFalls(places: nat, i: nat, j: nat)
    requires i < j < places
    ensures Share(places, i) > Share(places, j)
  {
    hide Harmonic;
    ReciprocalFalls(i + 1, j + 1);
    DivMono(1.0 / ((j + 1) as real), 1.0 / ((i + 1) as real), Harmonic(places));
  }

  /** Harmonic weights: the i-th place's share, i times over, is the winner's. */
  lemma SharesAreHarmonic(places: nat, i: nat)
    requires i < places
    ensures Share(places, i) * ((i + 1) as real) == Share(places, 0)
  {
    hide Harmonic;
    var n, h := (i + 1) as real, Harmonic(places);
    assert 1.0 / n * n == 1.0;
    assert (1.0 / n) / h * n == (1.0 / n * n) / h;
  }

  lemma ReciprocalFalls(a: nat, b: nat)
    requires 0 < a < b
    ensures 1.0 / (a as real) > 1.0 / (b as real)
  {
  }

  lemma DivMono(a: real, b: real, c: real)
    requires a < b && c > 0.0
    ensures a / c < b / c
  {
  }

  // ---------------------------------------------------------------- prizes

  /** A place's exact share of the pool, in chips and fractions. */
  function Due(pool: nat, places: nat, i: nat): real
    requires i < places
  {
    pool as real * Share(places, i)
  }

  /** Every place but the last: the share rounded down. */
  function Floored(pool: nat, places: nat, i: nat): (chips: int)
    requires i < places
    ensures chips as real <= Due(pool, places, i) < chips as real + 1.0
  {
    Due(pool, places, i).Floor
  }

  function PaidBefore(pool: nat, places: nat, k: nat): int
    requires k <= places
  {
    if k == 0 then 0 else PaidBefore(pool, places, k - 1) + Floored(pool, places, k - 1)
  }

  /** The last place takes what is left. */
  function Chips(pool: nat, places: nat, i: nat): int
    requires i < places
  {
    if i == places - 1 then pool - PaidBefore(pool, places, places - 1) else Floored(pool, places, i)
  }

  function Points(place: nat, field: nat): nat
    requires place > 0
  {
    if place == 1 then 100 + Min(field, 100)
    else if place == 2 then 60
    else if place == 3 then 40
    else Max(5, 30 / place)
  }

  /** Who finished i-th, if anybody did. */
  function Finisher(finishOrder: seq<PlayerId>, i: nat): Option<PlayerId> {
    if i < |finishOrder| then Some(finishOrder[i]) else None
  }

  /** `computePayouts`: the first `PaidPlaces` finishers, best first; an empty field still has one prize, for nobody. */
  function Payout(pool: nat, finishOrder: seq<PlayerId>): (prizes: seq<Prize>) {
    var places := PaidPlaces(|finishOrder|);
    seq(places, i requires 0 <= i < places =>
      Prize(Finisher(finishOrder, i), i + 1, Chips(pool, places, i), Points(i + 1, |finishOrder|)))
  }

  /** Rounding down k places keeps back less than k chips. */
  lemma {:induction false} KeptBack(pool: nat, places: nat, k: nat)
    requires k <= places
    ensures PaidBefore(pool, places, k) as real <= pool as real * ShareSum(places, k)
    ensures k > 0 ==> pool as real * ShareSum(places, k) < PaidBefore(pool, places, k) as real + k as real
  {
    hide Share, Harmonic;
    if k > 0 {
      KeptBack(pool, places, k - 1);
      Distribute(pool as real, ShareSum(places, k - 1), Share(places, k - 1));
    }
  }

  lemma Distribute(p: real, a: real, b: real)
    ensures p * (a + b) == p * a + p * b
  {
  }

  /** A place that is paid, but not last, gets less than a chip under its exact share. */
  lemma EarlierPrize(pool: nat, places: nat, i: nat)
    requires i < places - 1
    ensures Chips(pool, places, i) >= 0
    ensures Chips(pool, places, i) as real <= Due(pool, places, i) < Chips(pool, places, i) as real + 1.0
  {
  }

  /** The last paid place gets at least its exact share, and less than one chip extra for each place above it. */
  lemma LastPrize(pool: nat, places: nat)
    requires 0 < places
    ensures var i := places - 1; var chips := Chips(pool, places, i);
      && chips >= 0 && Due(pool, places, i) <= chips as real
      && (if i == 0 then chips == pool else chips as real < Due(pool, places, i) + i as real)
  {
    hide Share, ShareSum, Harmonic, Floored;
    var i := places - 1;
    SharesMakeWhole(places);
    KeptBack(pool, places, i);
    DuePositive(pool, places, i);
    LastShare(places);
  }

  lemma LastShare(places: nat)
    requires 0 < places
    ensures ShareSum(places, places - 1) + Share(places, places - 1) == 1.0
  {
    SharesMakeWhole(places);
  }

  lemma DuePositive(pool: nat, places: nat, i: nat)
    requires i < places
    ensures Due(pool, places, i) >= 0.0
  {
  }

  function SumPrizes(prizes: seq<Prize>): int {
    if prizes == [] then 0 else SumPrizes(prizes[..|prizes| - 1]) + prizes[|prizes| - 1].chips
  }

  lemma {:induction false} SumPrefix(pool: nat, order: seq<PlayerId>, k: nat)
    requires k < PaidPlaces(|order|)
    ensures SumPrizes(Payout(pool, order)[..k]) == PaidBefore(pool, PaidPlaces(|order|), k)
  {
    if k > 0 {
      SumPrefix(pool, order, k - 1);
      assert Payout(pool, order)[..k][..k - 1] == Payout(pool, order)[..k - 1];
    }
  }

  /** The prizes are the whole pool, to the chip. */
  lemma PaysThePool(pool: nat, order: seq<PlayerId>)
    ensures SumPrizes(Payout(pool, order)) == pool
  {
    var places := PaidPlaces(|order|);
    SumPrefix(pool, order, places - 1);
  }

  /** A better place never earns fewer points. */
  lemma BetterPlaceMorePoints(place: nat, worse: nat, field: nat)
    requires 0 < place <= worse
    ensures Points(place, field) >= Points(worse, field)
  {
  }

  /** Apart from the last paid place, a better place never gets fewer chips. */
  lemma BetterPlaceMoreChips(pool: nat, places: nat, i: nat, j: nat)
    requires i < j < places - 1
    ensures Chips(pool, places, i) >= Chips(pool, places, j)
  {
    hide Share;
    SharesMakeWhole(places);
    assert Share(places, i) > Share(places, j);
    assert Due(pool, places, j) <= Due(pool, places, i);
  }

  /**
   * How far each prize is from its exact share: less than a chip under it, but the last place at least its share
   * and less than one chip extra for each place above it. No prize is negative.
   */
  lemma PrizesNearShares(pool: nat, order: seq<PlayerId>, i: nat)
    requires i < |Payout(pool, order)|
    ensures var prizes := Payout(pool, order); var places := |prizes|;
      var chips, due := prizes[i].chips as real, Due(pool, places, i);
      && prizes[i].chips >= 0 && due < chips + 1.0
      && (if i < places - 1 then chips <= due else due <= chips && (if i == 0 then chips == due else chips < due + i as real))
  {
    hide Due, Share, ShareSum, PaidBefore;
    var places := PaidPlaces(|order|);
    if i < places - 1 {
      EarlierPrize(pool, places, i);
    } else {
      LastPrize(pool, places);
      OnlyPlace(pool);
    }
  }

  lemma OnlyPlace(pool: nat)
    ensures Due(pool, 1, 0) == pool as real
  {
    LastShare(1);
    assert ShareSum(1, 0) == 0.0;
  }

  /**
   * How many places are paid: one to two players, two from three on, three from seven on, and more than three of them
   * as long as that is at most fifteen in a hundred of the field.
   */
  lemma PlacesPaid(pool: nat, order: seq<PlayerId>, p: nat)
    requires p > 0
    ensures p <= |Payout(pool, order)|
      <==> p == 1 || (p == 2 && |order| >= 3) || (p == 3 && |order| >= 7) || (p > 3 && 100 * p <= 15 * |order|)
  {
  }

  /** The i-th prize is for the i-th place and whoever finished there. */
  lemma PrizesInOrder(pool: nat, order: seq<PlayerId>, i: nat)
    requires i < |Payout(pool, order)|
    ensures var prize := Payout(pool, order)[i];
      && prize.place == i + 1 && prize.points == Points(i + 1, |order|)
      && prize.player == if i < |order| then Some(order[i]) else None
  {
  }

  /** Points: the winner's grow with the field up to 200, 60 and 40 follow, then 30 over the place, but 5 at the least. */
  lemma PointsScale(place: nat, field: nat, points: nat)
    requires place > 0
    ensures Points(1, field) >= 100 && Points(2, field) == 60 && Points(3, field) == 40
    ensures place == 1 ==> (points <= Points(place, field) <==> points <= 200 && points <= 100 + field)
    ensures place > 3 ==> (points <= Points(place, field) <==> points <= 5 || points * place <= 30)
  {
    if place > 3 {
      QuotientAtMost(30, place, points);
    }
  }

  lemma QuotientAtMost(a: nat, b: nat, q: nat)
    requires b > 0
    ensures q <= a / b <==> q * b <= a
  {
    assert a == a / b * b + a % b;
    if q <= a / b {
      MulMono(q, a / b, b);
    } else {
      MulMono(a / b + 1, q, b);
    }
  }

  /** Two places are paid from three players on: the smallest field that pays more than its winner is three. */
  lemma SmallestPayingField(field: nat)
    ensures (PaidPlaces(field) > 1 && forall f :: 0 <= f < field ==> PaidPlaces(f) <= 1) <==> field == 3
  {
    assert PaidPlaces(2) == 1 && PaidPlaces(3) == 2;
    if field > 3 {
      assert !(PaidPlaces(3) <= 1);
    }
  }

  // ---------------------------------------------------------------- when prizes fall from place to place

  ghost predicate Falling(prizes: seq<Prize>) {
    forall i, j :: 0 <= i < j < |prizes| ==> prizes[i].chips >= prizes[j].chips
  }

  /** The last paid place, which takes what is left, gets no more than the place above it. */
  predicate LastInLine(pool: nat, places: nat)
    requires 2 <= places
  {
    pool <= PaidBefore(pool, places, places - 1) + Floored(pool, places, places - 2)
  }

  ghost predicate ChipsFall(pool: nat, places: nat) {
    forall i: nat, j: nat :: i < j < places ==> Chips(pool, places, i) >= Chips(pool, places, j)
  }

  lemma ChipsFallIff(pool: nat, places: nat)
    requires 2 <= places
    ensures ChipsFall(pool, places) <==> LastInLine(pool, places)
  {
    assert LastInLine(pool, places) <==> Chips(pool, places, places - 2) >= Chips(pool, places, places - 1);
    hide Chips, LastInLine;
    forall i: nat, j: nat | i < j < places && LastInLine(pool, places)
      ensures Chips(pool, places, i) >= Chips(pool, places, j)
    {
      if i < places - 2 {
        BetterPlaceMoreChips(pool, places, i, if j < places - 1 then j else places - 2);
      }
    }
  }

  /** Prizes fall from place to place exactly when the chips left for the last place stay within the prize above it. */
  lemma PrizesFallIff(pool: nat, order: seq<PlayerId>)
    ensures Falling(Payout(pool, order)) <==> PaidPlaces(|order|) == 1 || LastInLine(pool, PaidPlaces(|order|))
  {
    hide Chips, LastInLine;
    var places, prizes := PaidPlaces(|order|), Payout(pool, order);
    assert forall i: nat :: i < places ==> prizes[i].chips == Chips(pool, places, i);
    assert Falling(prizes) <==> ChipsFall(pool, places);
    if places >= 2 {
      ChipsFallIff(pool, places);
    }
  }

  /** They need not fall: seven entrants at one chip each are paid 3, 1 and 3. */
  lemma LastMayBeatSecond(order: seq<PlayerId>)
    requires |order| == 7
    ensures var prizes := Payout(7, order);
      |prizes| == 3 && prizes[0].chips == 3 && prizes[1].chips == 1 && prizes[2].chips == 3 && !Falling(prizes)
  {
    assert Harmonic(1) == 1.0 && Harmonic(2) == 1.5;
    assert Harmonic(3) == 11.0 / 6.0;
    assert Share(3, 0) == 6.0 / 11.0 && Share(3, 1) == 3.0 / 11.0;
    assert Floored(7, 3, 0) == 3 && Floored(7, 3, 1) == 1;
    assert PaidBefore(7, 3, 1) == 3 && PaidBefore(7, 3, 2) == 4;
  }

  /** A pool with which every prize falls, from the number of places alone. */
  function AmplePool(places: nat): real {
    var p := places as real;
    Harmonic(places) * (p * (p - 1.0)) * p
  }

  /** The last two shares differ by one part in H p (p - 1). */
  lemma LastGap(places: nat)
    requires 2 <= places
    ensures var p := places as real;
      (Share(places, places - 2) - Share(places, places - 1)) * (Harmonic(places) * (p * (p - 1.0))) == 1.0
  {
    hide Harmonic;
    var p, h := places as real, Harmonic(places);
    var u, v := 1.0 / (p - 1.0), 1.0 / p;
    assert (places - 1) as real == p - 1.0;
    QuotientGap(u, v, h);
    ReciprocalGap(p);
    Regroup(u - v, h, p * (p - 1.0));
  }

  lemma QuotientGap(u: real, v: real, h: real)
    requires h > 0.0
    ensures u / h - v / h == (u - v) / h && (u - v) / h * h == u - v
  {
  }

  lemma ReciprocalGap(p: real)
    requires p > 1.0
    ensures (1.0 / (p - 1.0) - 1.0 / p) * (p * (p - 1.0)) == 1.0
  {
    var u, v := 1.0 / (p - 1.0), 1.0 / p;
    assert u * (p - 1.0) == 1.0 && v * p == 1.0;
    assert (u - v) * (p * (p - 1.0)) == (u * (p - 1.0)) * p - (v * p) * (p - 1.0);
  }

  lemma Regroup(d: real, h: real, q: real)
    requires h > 0.0
    ensures d / h * (h * q) == d * q
  {
    assert d / h * (h * q) == (d / h * h) * q;
  }

  /** With an ample pool the prizes do fall: a bound an organiser can check before the start. */
  lemma AmplePoolSuffices(pool: nat, places: nat)
    requires 2 <= places && pool as real >= AmplePool(places)
    ensures LastInLine(pool, places)
  {
    hide Share, Harmonic, PaidBefore, Floored;
    var p := places as real;
    var gap, scale := Share(places, places - 2) - Share(places, places - 1), Harmonic(places) * (p * (p - 1.0));
    SharesMakeWhole(places);
    LastGap(places);
    Scaled(pool as real, gap, scale, p);
    Distribute(pool as real, Share(places, places - 1), gap);
    LastPrize(pool, places);
  }

  lemma Scaled(pool: real, gap: real, scale: real, p: real)
    requires pool >= scale * p && gap > 0.0 && gap * scale == 1.0
    ensures pool * gap >= p
  {
    assert (pool - scale * p) * gap >= 0.0;
    assert scale * p * gap == (gap * scale) * p;
  }

  /** The loop: each place its floor, the last place the remainder. */
  method ComputePayouts(pool: nat, finishOrder: seq<PlayerId>) returns (out: seq<Prize>)
    ensures out == Payout(pool, finishOrder)
  {
    var field := |finishOrder|;
    var places := PaidPlaces(field);
    out := [];
    var remaining: int := pool;
    for i := 0 to places
      invariant |out| == i && out == Payout(pool, finishOrder)[..i]
      invariant i < places ==> remaining == pool - PaidBefore(pool, places, i)
    {
      var chips := if i == places - 1 then remaining else Floored(pool, places, i);
      remaining := remaining - chips;
      out := out + [Prize(Finisher(finishOrder, i), i + 1, chips, Points(i + 1, field))];
    }
  }
}
