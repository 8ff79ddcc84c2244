/**
 * The commit-reveal shuffle. The hash is left arbitrary: a seed and nonce determine a commitment and a
 * stream of 32-bit words, and everything here holds for every such stream.
 */
module Shuffle {
  import opened Common
  import opened Cards

  const WORDS := 0x1_0000_0000

  // ---------------------------------------------------------------- unbiased integers

  /** Words below the limit are accepted: the largest multiple of n that 32 bits can hold. */
  function Limit(n: nat): nat
    requires 0 < n
  {
    WORDS - WORDS % n
  }

  lemma LimitIs(n: nat)
    requires 0 < n <= WORDS
    ensures Limit(n) % n == 0 && 0 < Limit(n) <= WORDS && WORDS - Limit(n) < n
    ensures Limit(n) == (WORDS / n) * n
  {
    var q := WORDS / n;
    assert WORDS == n * q + WORDS % n;
    assert q >= 1;
    assert Limit(n) == q * n + 0;
    QuotientRemainder(q, n, 0);
  }

  /** How many of the words below a bound give residue r. */
  function CountResidue(bound: nat, n: nat, r: nat): nat
    requires 0 < n
  {
    if bound == 0 then 0 else CountResidue(bound - 1, n, r) + if (bound - 1) % n == r then 1 else 0
  }

  lemma CountStep(m: nat, n: nat, r: nat)
    requires n > 0
    ensures CountResidue(m, n, r) == if m == 0 then 0 else CountResidue(m - 1, n, r) + if (m - 1) % n == r then 1 else 0
  {
  }

  lemma {:induction false} CountBlock(q: nat, n: nat, r: nat, k: nat)
    requires r < n && k <= n
    ensures CountResidue(q * n + k, n, r) == q + if r < k then 1 else 0
    decreases q, k
  {
    hide CountResidue;
    CountStep(q * n + k, n, r);
    if k > 0 {
      CountBlock(q, n, r, k - 1);
      QuotientRemainder(q, n, k - 1);
    } else if q > 0 {
      CountBlock(q - 1, n, r, n);
      assert q * n == (q - 1) * n + n;
    } else {
      assert 0 * n == 0;
    }
  }

  /** No residue is favoured: each has exactly Limit(n) / n accepted words. */
  lemma NoBias(n: nat, r: nat)
    requires 0 < n <= WORDS && r < n
    ensures CountResidue(Limit(n), n, r) == Limit(n) / n
  {
    LimitIs(n);
    CountBlock(WORDS / n, n, r, 0);
    QuotientRemainder(WORDS / n, n, 0);
  }

  type Stream = nat -> nat

  /** A stream of 32-bit words that never rejects for ever. */
  ghost predicate GoodStream(words: Stream) {
    && (forall c :: words(c) < WORDS)
    && forall n: nat, c: nat :: 0 < n <= WORDS ==> Accepts(words, n, c)
  }

  ghost predicate Accepts(words: Stream, n: nat, c: nat)
    requires 0 < n
  {
    exists k :: c <= k && words(k) < Limit(n)
  }

  /** The first accepted word at or after position c. */
  ghost predicate FirstAccepted(words: Stream, n: nat, c: nat, k: nat)
    requires 0 < n
  {
    c <= k && words(k) < Limit(n) && forall j :: c <= j < k ==> words(j) >= Limit(n)
  }

  /** `streamInt`: skip words at or above the limit, reduce the first one below it. */
  method StreamInt(words: Stream, n: nat, c: nat) returns (x: nat, c': nat)
    requires GoodStream(words) && 0 < n <= WORDS
    ensures x < n && c < c' && FirstAccepted(words, n, c, c' - 1) && x == words(c' - 1) % n
  {
    assert Accepts(words, n, c);
    ghost var goal :| c <= goal && words(goal) < Limit(n);
    c' := c;
    while true
      invariant c <= c' <= goal
      invariant forall j :: c <= j < c' ==> words(j) >= Limit(n)
      decreases goal - c'
    {
      var w := words(c');
      c' := c' + 1;
      if w < Limit(n) {
        return w % n, c';
      }
    }
  }

  // ---------------------------------------------------------------- Fisher-Yates

  function Swap<T>(s: seq<T>, i: nat, j: nat): (r: seq<T>)
    requires i < |s| && j < |s|
    ensures |r| == |s|
  {
    s[i := s[j]][j := s[i]]
  }

  /** One index for each position from the last down to 1: js[i - 1] in 0..i. */
  ghost predicate GoodIndices(js: seq<nat>, n: nat) {
    |js| == (if n == 0 then 0 else n - 1) && forall i :: 0 <= i < |js| ==> js[i] <= i + 1
  }

  /** The shuffle by given indices: settle the last position, then shuffle the rest. */
  function Shuffled<T>(s: seq<T>, js: seq<nat>): (r: seq<T>)
    requires |js| == (if s == [] then 0 else |s| - 1) && forall i :: 0 <= i < |js| ==> js[i] <= i + 1
    ensures |r| == |s|
    decreases |s|
  {
    if |s| <= 1 then s
    else
      var i := |s| - 1;
      var t := Swap(s, i, js[i - 1]);
      Shuffled(t[..i], js[..i - 1]) + [t[i]]
  }

  lemma SwapBag<T>(s: seq<T>, i: nat, j: nat)
    requires i < |s| && j < |s|
    ensures multiset(Swap(s, i, j)) == multiset(s) && Swap(s, i, j)[i] == s[j]
  {
  }

  /** A shuffle loses and invents nothing. */
  lemma {:induction false} ShuffledPermutes<T>(s: seq<T>, js: seq<nat>)
    requires GoodIndices(js, |s|)
    ensures multiset(Shuffled(s, js)) == multiset(s)
    decreases |s|
  {
    if |s| > 1 {
      var i := |s| - 1;
      var t := Swap(s, i, js[i - 1]);
      SwapBag(s, i, js[i - 1]);
      ShuffledPermutes(t[..i], js[..i - 1]);
      assert t == t[..i] + [t[i]];
    }
  }

  lemma SwapDistinct<T>(s: seq<T>, i: nat, j: nat)
    requires i < |s| && j < |s| && Distinct(s)
    ensures Distinct(Swap(s, i, j))
  {
  }

  /** The last entry is settled by the last index alone; the others are the shuffle of what is left. */
  lemma ShuffledLast<T>(s: seq<T>, js: seq<nat>)
    requires |s| > 1 && GoodIndices(js, |s|)
    ensures var i := |s| - 1; var t := Swap(s, i, js[i - 1]);
      && Shuffled(s, js)[i] == s[js[i - 1]]
      && GoodIndices(js[..i - 1], i) && Shuffled(s, js)[..i] == Shuffled(t[..i], js[..i - 1])
  {
  }

  /** Different indices give different shuffles. */
  lemma {:induction false} ShuffledInjective<T>(s: seq<T>, js: seq<nat>, ks: seq<nat>)
    requires Distinct(s) && GoodIndices(js, |s|) && GoodIndices(ks, |s|)
    requires Shuffled(s, js) == Shuffled(s, ks)
    ensures js == ks
    decreases |s|
  {
    hide Shuffled, Swap;
    if |s| > 1 {
      var i := |s| - 1;
      ShuffledLast(s, js);
      ShuffledLast(s, ks);
      assert js[i - 1] == ks[i - 1];
      var t := Swap(s, i, js[i - 1]);
      SwapDistinct(s, i, js[i - 1]);
      ShuffledInjective(t[..i], js[..i - 1], ks[..i - 1]);
      assert js == js[..i - 1] + [js[i - 1]] && ks == ks[..i - 1] + [ks[i - 1]];
    }
  }

  lemma DropLast<T>(s: seq<T>, i: nat)
    requires |s| == i + 1
    ensures s == s[..i] + [s[i]] && multiset(s[..i]) == multiset(s) - multiset{s[i]}
  {
  }

  /** Bringing the wanted last element into place leaves the rest to arrange. */
  lemma LastInPlace<T>(s: seq<T>, p: seq<T>, j: nat)
    requires s != [] && |p| == |s| && multiset(p) == multiset(s) && Distinct(s) && j < |s| && s[j] == p[|s| - 1]
    ensures var i := |s| - 1; var t := Swap(s, i, j);
      t[i] == p[i] && Distinct(t[..i]) && multiset(t[..i]) == multiset(p[..i])
  {
    hide Swap;
    var i := |s| - 1;
    SwapBag(s, i, j);
    SwapDistinct(s, i, j);
    DropLast(Swap(s, i, j), i);
    DropLast(p, i);
  }

  lemma FindLast<T>(s: seq<T>, p: seq<T>) returns (j: nat)
    requires s != [] && |p| == |s| && multiset(p) == multiset(s)
    ensures j < |s| && s[j] == p[|s| - 1]
  {
    var x := p[|s| - 1];
    assert x in multiset(p);
    j :| 0 <= j < |s| && s[j] == x;
  }

  /** Every arrangement is reached, so the indices and the arrangements are in bijection. */
  lemma {:induction false} ShuffledSurjective<T>(s: seq<T>, p: seq<T>) returns (js: seq<nat>)
    requires Distinct(s) && multiset(p) == multiset(s)
    ensures GoodIndices(js, |s|) && Shuffled(s, js) == p
    decreases |s|
  {
    hide Swap, Distinct;
    SameLength(s, p);
    if s == [] {
      js := [];
    } else {
      var i := |s| - 1;
      var j := FindLast(s, p);
      LastInPlace(s, p, j);
      if i == 0 {
        js := [];
        assert p == [p[0]] && s == [s[0]];
      } else {
        var rest := ShuffledSurjective(Swap(s, i, j)[..i], p[..i]);
        js := rest + [j];
        assert js[..i - 1] == rest && p == p[..i] + [p[i]];
      }
    }
  }

  lemma SameLength<T>(s: seq<T>, p: seq<T>)
    requires multiset(p) == multiset(s)
    ensures |p| == |s|
  {
    assert |multiset(p)| == |multiset(s)|;
  }

  // ---------------------------------------------------------------- the shuffle of a seed

  lemma LeastAccepted(words: Stream, n: nat, c: nat) returns (k: nat)
    requires 0 < n && Accepts(words, n, c)
    ensures FirstAccepted(words, n, c, k)
  {
    var goal :| c <= goal && words(goal) < Limit(n);
    k := c;
    while words(k) >= Limit(n)
      invariant c <= k <= goal && forall j :: c <= j < k ==> words(j) >= Limit(n)
      decreases goal - k
    {
      k := k + 1;
    }
  }

  lemma SomeFirst(words: Stream, n: nat, c: nat)
    requires 0 < n && Accepts(words, n, c)
    ensures exists k :: FirstAccepted(words, n, c, k)
  {
    var k := LeastAccepted(words, n, c);
  }

  /** The position of the first accepted word. */
  ghost function FirstWord(words: Stream, n: nat, c: nat): (k: nat)
    requires 0 < n && Accepts(words, n, c)
    ensures FirstAccepted(words, n, c, k)
  {
    SomeFirst(words, n, c);
    var k: nat :| FirstAccepted(words, n, c, k);
    k
  }

  /** The indices a stream yields for positions i, i - 1, ..., 1, reading from word c. */
  ghost function Indices(words: Stream, i: nat, c: nat): (js: seq<nat>)
    requires GoodStream(words) && i < WORDS
    ensures |js| == i && forall h :: 0 <= h < i ==> js[h] <= h + 1
    decreases i
  {
    if i == 0 then []
    else
      assert Accepts(words, i + 1, c);
      var k := FirstWord(words, i + 1, c);
      Indices(words, i - 1, k + 1) + [words(k) % (i + 1)]
  }

  /** The shuffle that a stream determines. */
  ghost function ShuffleOf(words: Stream, ids: seq<nat>): (out: seq<nat>)
    requires GoodStream(words) && |ids| <= WORDS
    ensures |out| == |ids|
  {
    if ids == [] then [] else Shuffled(ids, Indices(words, |ids| - 1, 0))
  }

  /** Whatever the stream, the shuffle is a permutation. */
  lemma ShufflePermutes(words: Stream, ids: seq<nat>)
    requires GoodStream(words) && |ids| <= WORDS
    ensures multiset(ShuffleOf(words, ids)) == multiset(ids)
  {
    if ids != [] {
      ShuffledPermutes(ids, Indices(words, |ids| - 1, 0));
    }
  }

  /**
   * The order of the draws: the last place is settled first, by the first word below the limit for all n entries, and
   * what it takes is replaced by the entry that stood there.
   */
  lemma LastPlaceFirst(words: Stream, ids: seq<nat>, k: nat)
    requires GoodStream(words) && 2 <= |ids| <= WORDS && FirstAccepted(words, |ids|, 0, k)
    ensures var n := |ids|; var j := words(k) % n; var out := ShuffleOf(words, ids);
      && out[n - 1] == ids[j]
      && out[..n - 1] == Shuffled(ids[j := ids[n - 1]][..n - 1], Indices(words, n - 2, k + 1))
  {
    var n := |ids|;
    var j := words(k) % n;
    assert FirstWord(words, n, 0) == k;
    var js := Indices(words, n - 1, 0);
    assert js == Indices(words, n - 2, k + 1) + [j];
    assert js[..n - 2] == Indices(words, n - 2, k + 1);
    assert Swap(ids, n - 1, j)[..n - 1] == ids[j := ids[n - 1]][..n - 1];
  }

  /** What the loop has still to do: shuffle the first i + 1 entries from word c on. */
  ghost function Remaining(words: Stream, s: seq<nat>, i: nat, c: nat): seq<nat>
    requires GoodStream(words) && i < |s| && i < WORDS
  {
    Shuffled(s[..i + 1], Indices(words, i, c)) + s[i + 1..]
  }

  lemma RemainingAll(words: Stream, ids: seq<nat>)
    requires GoodStream(words) && 0 < |ids| <= WORDS
    ensures Remaining(words, ids, |ids| - 1, 0) == ShuffleOf(words, ids)
  {
    assert ids[..|ids| - 1 + 1] == ids && ids[|ids| - 1 + 1..] == [];
  }

  lemma RemainingNone(words: Stream, s: seq<nat>, c: nat)
    requires GoodStream(words) && s != []
    ensures Remaining(words, s, 0, c) == s
  {
  }

  /** A swap inside the first i + 1 entries, seen from the whole and from the front. */
  lemma SwapFront(s: seq<nat>, i: nat, j: nat)
    requires i < |s| && j <= i
    ensures var t := Swap(s[..i + 1], i, j); var u := Swap(s, i, j);
      u[..i] == t[..i] && u[i..] == [t[i]] + s[i + 1..]
  {
  }

  lemma OneSwap(words: Stream, s: seq<nat>, i: nat, c: nat, k: nat)
    requires GoodStream(words) && 0 < i < |s| && i < WORDS && FirstAccepted(words, i + 1, c, k)
    ensures Remaining(words, Swap(s, i, words(k) % (i + 1)), i - 1, k + 1) == Remaining(words, s, i, c)
  {
    hide Swap, Indices, GoodStream;
    var j := words(k) % (i + 1);
    IndicesStep(words, i, c, k);
    SwapFront(s, i, j);
    var js := Indices(words, i - 1, k + 1);
    var t := Swap(s[..i + 1], i, j);
    var u := Swap(s, i, j);
    assert Shuffled(s[..i + 1], js + [j]) == Shuffled(t[..i], js) + [t[i]] by {
      assert (js + [j])[..i - 1] == js && (js + [j])[i - 1] == j;
    }
    assert u[..i - 1 + 1] == t[..i] && u[i - 1 + 1..] == [t[i]] + s[i + 1..];
  }

  lemma IndicesStep(words: Stream, i: nat, c: nat, k: nat)
    requires GoodStream(words) && 0 < i < WORDS && FirstAccepted(words, i + 1, c, k)
    ensures Indices(words, i, c) == Indices(words, i - 1, k + 1) + [words(k) % (i + 1)]
  {
  }

  /** `fisherYates`: the in-place loop from the last position down. */
  method FisherYates(ids: seq<nat>, words: Stream) returns (out: array<nat>)
    requires GoodStream(words) && |ids| <= WORDS
    ensures out[..] == ShuffleOf(words, ids)
  {
    hide Remaining, ShuffleOf, GoodStream;
    out := new nat[|ids|](i requires 0 <= i < |ids| => ids[i]);
    assert out[..] == ids;
    if |ids| == 0 {
      return;
    }
    var c := 0;
    var i := out.Length - 1;
    RemainingAll(words, ids);
    while i > 0
      invariant 0 <= i < out.Length
      invariant Remaining(words, out[..], i, c) == ShuffleOf(words, ids)
    {
      ghost var before := out[..];
      ghost var start := c;
      var j;
      j, c := StreamInt(words, i + 1, c);
      OneSwap(words, before, i, start, c - 1);
      var tmp := out[i];
      out[i] := out[j];
      out[j] := tmp;
      assert out[..] == Swap(before, i, j);
      i := i - 1;
    }
    RemainingNone(words, out[..], c);
  }

  // ---------------------------------------------------------------- commit and reveal

  /** The hash, left arbitrary: what a seed and nonce commit to, and the words they generate. */
  datatype Hash = Hash(commit: (nat, nat) -> nat, words: (nat, nat) -> Stream)

  ghost predicate GoodHash(h: Hash) {
    forall seed, nonce :: GoodStream(h.words(seed, nonce))
  }

  function AllIds(n: nat): (ids: seq<nat>)
    ensures |ids| == n && forall i :: 0 <= i < n ==> ids[i] == i
  {
    seq(n, i => i)
  }

  /** The 52 card ids in the order a seed and nonce shuffle them. */
  ghost function DeckOrder(h: Hash, seed: nat, nonce: nat): (ids: seq<nat>)
    requires GoodHash(h)
    ensures |ids| == DECK_SIZE
  {
    ShuffleOf(h.words(seed, nonce), AllIds(DECK_SIZE))
  }

  /** Each of the n ids occurs once and nothing else occurs. */
  ghost predicate EachOnce(ids: seq<nat>, n: nat) {
    forall x: nat :: multiset(ids)[x] == (if x < n then 1 else 0)
  }

  lemma {:induction false} IdsOnce(n: nat)
    ensures EachOnce(AllIds(n), n)
  {
    if n > 0 {
      IdsOnce(n - 1);
      assert AllIds(n) == AllIds(n - 1) + [n - 1];
    }
  }

  /** Every shuffled deck holds each of the 52 cards exactly once. */
  lemma DeckIsComplete(h: Hash, seed: nat, nonce: nat)
    requires GoodHash(h)
    ensures EachOnce(DeckOrder(h, seed, nonce), DECK_SIZE)
    ensures Distinct(DeckOrder(h, seed, nonce)) && forall i :: 0 <= i < DECK_SIZE ==> DeckOrder(h, seed, nonce)[i] < DECK_SIZE
  {
    var ids := DeckOrder(h, seed, nonce);
    ShufflePermutes(h.words(seed, nonce), AllIds(DECK_SIZE));
    IdsOnce(DECK_SIZE);
    CountedDistinct(ids);
  }

  lemma CountedDistinct(ids: seq<nat>)
    requires EachOnce(ids, DECK_SIZE)
    ensures Distinct(ids) && forall i :: 0 <= i < |ids| ==> ids[i] < DECK_SIZE
  {
    forall i | 0 <= i < |ids| ensures ids[i] < DECK_SIZE {
      assert ids[i] in multiset(ids);
    }
    forall i, j | 0 <= i < j < |ids|
      ensures ids[i] != ids[j]
    {
      assert ids == ids[..i] + [ids[i]] + ids[i + 1..j] + [ids[j]] + ids[j + 1..];
      assert multiset(ids)[ids[i]] <= 1;
    }
  }

  /** The deck starts with the given cards, in the given order. */
  predicate DeckFollows(deck: seq<Card>, ids: seq<nat>) {
    |ids| <= |deck| && forall i :: 0 <= i < |ids| ==> CardId(deck[i]) == ids[i]
  }

  /** `verifyShuffle`: the commitment matches and the deck starts with the 52 cards in the shuffled order. */
  method VerifyShuffle(h: Hash, seed: nat, nonce: nat, commitment: nat, deck: seq<Card>) returns (ok: bool)
    requires GoodHash(h)
    ensures ok <==> h.commit(seed, nonce) == commitment && DeckFollows(deck, DeckOrder(h, seed, nonce))
  {
    if h.commit(seed, nonce) != commitment {
      return false;
    }
    var ids := FisherYates(AllIds(DECK_SIZE), h.words(seed, nonce));
    ghost var order := DeckOrder(h, seed, nonce);
    for i := 0 to ids.Length
      invariant i <= |deck| && forall k :: 0 <= k < i ==> CardId(deck[k]) == order[k]
    {
      assert ids[i] == ids[..][i] == order[i];
      if i >= |deck| || ids[i] != CardId(deck[i]) {
        return false;
      }
    }
    return true;
  }

  /** The cards with the given ids, in order. */
  function CardsOf(ids: seq<nat>): (cards: seq<Card>)
    requires forall i :: 0 <= i < |ids| ==> ids[i] < DECK_SIZE
    ensures |cards| == |ids| && DeckFollows(cards, ids)
  {
    if ids == [] then []
    else
      var last := |ids| - 1;
      CardsOf(ids[..last]) + [CardFromId(ids[last]).value]
  }

  /** The deck a seed and nonce determine. */
  ghost function DeckOf(h: Hash, seed: nat, nonce: nat): (deck: seq<Card>)
    requires GoodHash(h)
    ensures |deck| == DECK_SIZE && DeckFollows(deck, DeckOrder(h, seed, nonce))
  {
    DeckIsComplete(h, seed, nonce);
    CardsOf(DeckOrder(h, seed, nonce))
  }

  /** The deck of a seed and nonce, from their words: its last card has the id that the first accepted word leaves over 52. */
  lemma DeckFromWords(h: Hash, seed: nat, nonce: nat, k: nat)
    requires GoodHash(h) && FirstAccepted(h.words(seed, nonce), 52, 0, k)
    ensures |DeckOf(h, seed, nonce)| == 52 && CardId(DeckOf(h, seed, nonce)[51]) == h.words(seed, nonce)(k) % 52
  {
    hide ShuffleOf, Indices;
    LastPlaceFirst(h.words(seed, nonce), AllIds(DECK_SIZE), k);
    assert DeckFollows(DeckOf(h, seed, nonce), DeckOrder(h, seed, nonce));
  }

  /** Shuffle the 52 ids and turn them into cards. */
  method MakeDeck(h: Hash, seed: nat, nonce: nat) returns (deck: seq<Card>)
    requires GoodHash(h)
    ensures deck == DeckOf(h, seed, nonce)
  {
    var order := FisherYates(AllIds(DECK_SIZE), h.words(seed, nonce));
    DeckIsComplete(h, seed, nonce);
    deck := CardsOf(order[..]);
  }

  /** No card is dealt twice from a shuffled deck. */
  lemma DeckHasNoRepeats(h: Hash, seed: nat, nonce: nat)
    requires GoodHash(h)
    ensures Distinct(DeckOf(h, seed, nonce))
  {
    DeckIsComplete(h, seed, nonce);
    var deck, ids := DeckOf(h, seed, nonce), DeckOrder(h, seed, nonce);
    forall j, k | 0 <= j < k < |deck|
      ensures deck[j] != deck[k]
    {
      assert CardId(deck[j]) == ids[j] && CardId(deck[k]) == ids[k];
    }
  }

  /** A dealt hand: its deck and how many cards have been taken. */
  class HandDeal {
    const commitment: nat
    const seed: nat
    const nonce: nat
    const deck: seq<Card>
    var i: nat

    /** The deck is the one committed to. */
    ghost predicate Valid(h: Hash)
      reads this
    {
      GoodHash(h) && commitment == h.commit(seed, nonce) && deck == DeckOf(h, seed, nonce)
    }

    /** `openHand`. */
    constructor (h: Hash, seed: nat, nonce: nat)
      requires GoodHash(h)
      ensures Valid(h) && i == 0 && this.seed == seed && this.nonce == nonce
    {
      this.seed, this.nonce, this.commitment := seed, nonce, h.commit(seed, nonce);
      var cards := MakeDeck(h, seed, nonce);
      deck := cards;
      i := 0;
    }

    /** `next` and `burn`: the next card; past the end the cursor still moves but there is no card. */
    method Take(ghost h: Hash) returns (c: Option<Card>)
      requires Valid(h)
      modifies this`i
      ensures Valid(h) && i == old(i) + 1
      ensures c == if old(i) < DECK_SIZE then Some(deck[old(i)]) else None
    {
      c := if i < |deck| then Some(deck[i]) else None;
      i := i + 1;
    }

    /** Anyone holding the revealed seed and nonce can check the deck against the commitment. */
    method Verify(h: Hash) returns (ok: bool)
      requires Valid(h)
      ensures ok
    {
      ok := VerifyShuffle(h, seed, nonce, commitment, deck);
    }
  }
}
