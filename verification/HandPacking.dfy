/** A hand's value as one integer: a category nibble over five kicker nibbles, ordered lexicographically. */
module HandPacking {
  import opened Common

  // ---------------------------------------------------------------- bits of naturals

  function Pow2(n: nat): (p: nat)
    ensures p > 0
  {
    if n == 0 then 1 else 2 * Pow2(n - 1)
  }

  /** Bitwise or, bit by bit. */
  function BitOr(x: nat, y: nat): nat {
    if x == 0 && y == 0 then 0
    else 2 * BitOr(x / 2, y / 2) + if x % 2 == 1 || y % 2 == 1 then 1 else 0
  }

  function Shl(x: nat, n: nat): nat {
    x * Pow2(n)
  }

  function Div(x: nat, p: nat): nat
    requires p > 0
  {
    x / p
  }

  function Shr(x: nat, n: nat): nat {
    Div(x, Pow2(n))
  }

  /** Or-ing a number into bits that are still zero adds it. */
  lemma {:induction false} OrIntoZeros(x: nat, y: nat, n: nat)
    requires y < Pow2(n)
    ensures BitOr(x * Pow2(n), y) == x * Pow2(n) + y
  {
    if n == 0 {
      assert x * Pow2(0) == x;
      OrNothing(x);
    } else {
      var p := Pow2(n - 1);
      assert x * Pow2(n) == 2 * (x * p);
      assert y / 2 < p;
      OrIntoZeros(x, y / 2, n - 1);
      assert (2 * (x * p)) / 2 == x * p && (2 * (x * p)) % 2 == 0;
    }
  }

  lemma {:induction false} OrNothing(x: nat)
    ensures BitOr(x, 0) == x
  {
    if x > 0 {
      OrNothing(x / 2);
    }
  }

  // ---------------------------------------------------------------- packing

  /** A base-16 number with leading part a and digits s. */
  function Digits(a: nat, s: seq<nat>): nat
    decreases |s|
  {
    if s == [] then a else Digits(16 * a + s[0], s[1..])
  }

  function Padded(kickers: seq<nat>): (s: seq<nat>)
    requires |kickers| <= 5
    ensures |s| == 5
  {
    kickers + seq(5 - |kickers|, _ => 0)
  }

  predicate Nibbles(s: seq<nat>) {
    forall i :: 0 <= i < |s| ==> s[i] < 16
  }

  /** What a category and its kickers pack to. */
  function Packed(category: nat, kickers: seq<nat>): nat
    requires |kickers| <= 5
  {
    Digits(category, Padded(kickers))
  }

  lemma {:induction false} DigitsAppend(a: nat, s: seq<nat>, x: nat)
    ensures Digits(a, s + [x]) == 16 * Digits(a, s) + x
    decreases |s|
  {
    if s == [] {
      assert [] + [x] == [x];
      assert [x][1..] == [];
    } else {
      assert (s + [x])[1..] == s[1..] + [x];
      DigitsAppend(16 * a + s[0], s[1..], x);
    }
  }

  method Pad(kickers: seq<nat>) returns (padded: seq<nat>)
    requires |kickers| <= 5
    ensures padded == Padded(kickers)
  {
    padded := kickers;
    while |padded| < 5
      invariant |kickers| <= |padded| <= 5 && padded == kickers + seq(|padded| - |kickers|, _ => 0)
    {
      padded := padded + [0];
    }
  }

  /** The packing loop: shift each kicker to its place and or it in. */
  method Pack(category: nat, kickers: seq<nat>) returns (v: nat)
    requires category < 16 && |kickers| <= 5 && Nibbles(kickers)
    ensures v == Packed(category, kickers)
  {
    hide Pow2, BitOr, Digits;
    v := Shl(category % 16, 20);
    var padded := Pad(kickers);
    NoDigits(category);
    for i := 0 to 5
      invariant v == Digits(category, padded[..i]) * Pow2(20 - 4 * i)
    {
      var k := padded[i];
      assert k < 16;
      PlaceNibble(Digits(category, padded[..i]), k, 16 - 4 * i);
      DigitsAppend(category, padded[..i], k);
      assert padded[..i + 1] == padded[..i] + [k];
      v := BitOr(v, Shl(k % 16, 16 - i * 4));
    }
    assert padded[..5] == padded;
    NoDigits(v);
  }

  lemma NoDigits(a: nat)
    ensures Digits(a, []) == a && Pow2(0) == 1
  {
  }

  lemma PlaceNibble(d: nat, k: nat, shift: nat)
    requires k < 16
    ensures BitOr(d * Pow2(shift + 4), Shl(k, shift)) == (16 * d + k) * Pow2(shift)
  {
    hide BitOr;
    var p := Pow2(shift);
    Sixteen(shift);
    assert k * p < 16 * p by {
      MulMono(k + 1, 16, p);
    }
    OrIntoZeros(d, k * p, shift + 4);
    Distribute(d, k, p);
  }

  lemma Distribute(d: nat, k: nat, p: nat)
    ensures d * (16 * p) + k * p == (16 * d + k) * p
  {
  }

  // ---------------------------------------------------------------- order

  predicate LexLess(s: seq<nat>, t: seq<nat>)
    requires |s| == |t|
    decreases |s|
  {
    s != [] && (s[0] < t[0] || (s[0] == t[0] && LexLess(s[1..], t[1..])))
  }

  lemma {:induction false} DigitsOrder(a: nat, s: seq<nat>, b: nat, t: seq<nat>)
    requires |s| == |t| && Nibbles(s) && Nibbles(t)
    ensures Digits(a, s) < Digits(b, t) <==> a < b || (a == b && LexLess(s, t))
    decreases |s|
  {
    if s != [] {
      DigitsOrder(16 * a + s[0], s[1..], 16 * b + t[0], t[1..]);
    }
  }

  lemma {:induction false} LexTrichotomy(s: seq<nat>, t: seq<nat>)
    requires |s| == |t|
    ensures LexLess(s, t) || LexLess(t, s) || s == t
    ensures !(LexLess(s, t) && LexLess(t, s)) && (s == t ==> !LexLess(s, t))
    decreases |s|
  {
    if s != [] {
      LexTrichotomy(s[1..], t[1..]);
      assert s == [s[0]] + s[1..] && t == [t[0]] + t[1..];
    }
  }

  lemma {:induction false} LexPadded(s: seq<nat>, t: seq<nat>, pad: seq<nat>)
    requires |s| == |t|
    ensures LexLess(s + pad, t + pad) <==> LexLess(s, t)
    decreases |s|
  {
    if s == [] {
      assert s + pad == pad && t + pad == pad;
      LexTrichotomy(pad, pad);
    } else {
      assert (s + pad)[1..] == s[1..] + pad && (t + pad)[1..] == t[1..] + pad;
      LexPadded(s[1..], t[1..], pad);
    }
  }

  /** Packing is an order embedding: category first, then the kickers from the left. */
  lemma PackedOrder(c: nat, s: seq<nat>, d: nat, t: seq<nat>)
    requires |s| <= 5 && |t| <= 5 && Nibbles(s) && Nibbles(t)
    ensures Packed(c, s) < Packed(d, t) <==> c < d || (c == d && LexLess(Padded(s), Padded(t)))
    ensures |s| == |t| ==> (LexLess(Padded(s), Padded(t)) <==> LexLess(s, t))
  {
    DigitsOrder(c, Padded(s), d, Padded(t));
    if |s| == |t| {
      LexPadded(s, t, seq(5 - |s|, _ => 0));
    }
  }

  lemma NibbleRoom(a: nat, x: nat, p: nat)
    requires x < 16
    ensures a * (16 * p) <= (16 * a + x) * p && (16 * a + x + 1) * p <= (a + 1) * (16 * p)
  {
    MulMono(16 * a, 16 * a + x, p);
    MulMono(16 * a + x + 1, 16 * (a + 1), p);
    assert a * (16 * p) == (16 * a) * p && (a + 1) * (16 * p) == (16 * (a + 1)) * p;
  }

  lemma Sixteen(n: nat)
    ensures Pow2(n + 4) == 16 * Pow2(n)
  {
    assert Pow2(n + 1) == 2 * Pow2(n);
    assert Pow2(n + 3) == 2 * Pow2(n + 2);
  }

  lemma {:induction false} DigitsSplit(a: nat, s: seq<nat>)
    requires Nibbles(s)
    ensures a * Pow2(4 * |s|) <= Digits(a, s) < (a + 1) * Pow2(4 * |s|)
    decreases |s|
  {
    if s == [] {
      assert Pow2(0) == 1;
    } else {
      DigitsSplit(16 * a + s[0], s[1..]);
      Sixteen(4 * |s[1..]|);
      NibbleRoom(a, s[0], Pow2(4 * |s[1..]|));
    }
  }

  /** `handCategory`: the category nibble. */
  function HandCategory(value: nat): nat {
    Shr(value, 20) % 16
  }

  /** The category reads back, and the value stays within 24 bits, where the program's bit operations are exact. */
  lemma CategoryReadsBack(c: nat, kickers: seq<nat>)
    requires c < 16 && |kickers| <= 5 && Nibbles(kickers)
    ensures HandCategory(Packed(c, kickers)) == c && Packed(c, kickers) < Pow2(24)
  {
    hide Pow2, Digits;
    DigitsSplit(c, Padded(kickers));
    QuotientIs(Packed(c, kickers), Pow2(20), c);
    Sixteen(20);
    MulMono(c + 1, 16, Pow2(20));
  }
}
