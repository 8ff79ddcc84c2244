/** Seating a tournament: dealing players out to tables, and merging tables as players bust. */
module TournamentTables {
  import opened Common

  /** Table ids: the numbered ones made at the start, and the name used when no table is left. */
  datatype TableId = Numbered(n: nat) | Final

  datatype TTable = TTable(id: TableId, players: seq<PlayerId>)

  // ---------------------------------------------------------------- bags

  function PlayersOf(t: TTable): multiset<PlayerId> {
    multiset(t.players)
  }

  function IdOf(t: TTable): multiset<TableId> {
    multiset{t.id}
  }

  /** The bags of several tables together. */
  function Bag<T>(ts: seq<TTable>, f: TTable -> multiset<T>): multiset<T> {
    if ts == [] then multiset{} else f(ts[0]) + Bag(ts[1..], f)
  }

  function Everyone(ts: seq<TTable>): multiset<PlayerId> {
    Bag(ts, PlayersOf)
  }

  /** How many players sit at some tables. */
  function Total(ts: seq<TTable>): nat {
    if ts == [] then 0 else |ts[0].players| + Total(ts[1..])
  }

  function Keep(ts: seq<TTable>, f: TTable -> bool): (r: seq<TTable>)
    ensures |r| <= |ts|
    ensures forall t :: t in r ==> t in ts && f(t)
  {
    if ts == [] then [] else (if f(ts[0]) then [ts[0]] else []) + Keep(ts[1..], f)
  }

  /** How often something occurs in the bags of several tables. */
  function Count<T>(ts: seq<TTable>, f: TTable -> multiset<T>, x: T): nat {
    if ts == [] then 0 else f(ts[0])[x] + Count(ts[1..], f, x)
  }

  lemma {:induction false} BagCount<T>(ts: seq<TTable>, f: TTable -> multiset<T>, x: T)
    ensures Bag(ts, f)[x] == Count(ts, f, x)
  {
    if ts != [] {
      BagCount(ts[1..], f, x);
    }
  }

  lemma SameEveryone(a: seq<TTable>, b: seq<TTable>)
    requires forall x :: Count(a, PlayersOf, x) == Count(b, PlayersOf, x)
    ensures Everyone(a) == Everyone(b)
  {
    forall x: PlayerId
      ensures Everyone(a)[x] == Everyone(b)[x]
    {
      BagCount(a, PlayersOf, x);
      BagCount(b, PlayersOf, x);
    }
  }

  lemma {:induction false} CountAppend<T>(a: seq<TTable>, b: seq<TTable>, f: TTable -> multiset<T>, x: T)
    ensures Count(a + b, f, x) == Count(a, f, x) + Count(b, f, x)
  {
    if a == [] {
      assert a + b == b;
    } else {
      assert (a + b)[1..] == a[1..] + b;
      CountAppend(a[1..], b, f, x);
    }
  }

  lemma EveryoneAtOne(t: TTable)
    ensures Everyone([t]) == multiset(t.players)
  {
    assert Bag([t][1..], PlayersOf) == multiset{};
  }

  lemma {:induction false} CountUpdate<T>(ts: seq<TTable>, i: nat, t: TTable, f: TTable -> multiset<T>, x: T)
    requires i < |ts|
    ensures Count(ts[i := t], f, x) + f(ts[i])[x] == Count(ts, f, x) + f(t)[x]
  {
    if i == 0 {
      assert ts[i := t][1..] == ts[1..];
    } else {
      assert ts[i := t][1..] == ts[1..][i - 1 := t];
      CountUpdate(ts[1..], i - 1, t, f, x);
    }
  }

  /** Splitting tables in two by any test keeps every count. */
  lemma {:induction false} CountSplit<T>(ts: seq<TTable>, p: TTable -> bool, q: TTable -> bool, f: TTable -> multiset<T>, x: T)
    requires forall t :: p(t) != q(t)
    ensures Count(Keep(ts, p), f, x) + Count(Keep(ts, q), f, x) == Count(ts, f, x)
    ensures |Keep(ts, p)| + |Keep(ts, q)| == |ts|
  {
    if ts != [] {
      CountSplit(ts[1..], p, q, f, x);
      if p(ts[0]) {
        CountAppend([ts[0]], Keep(ts[1..], p), f, x);
        assert [] + Keep(ts[1..], q) == Keep(ts[1..], q);
      } else {
        CountAppend([ts[0]], Keep(ts[1..], q), f, x);
        assert [] + Keep(ts[1..], p) == Keep(ts[1..], p);
      }
    }
  }

  lemma {:induction false} TotalIs(ts: seq<TTable>)
    ensures Total(ts) == |Everyone(ts)|
  {
    if ts != [] {
      TotalIs(ts[1..]);
    }
  }

  predicate Taken(t: TTable) {
    |t.players| > 0
  }

  predicate Vacant(t: TTable) {
    |t.players| == 0
  }

  lemma {:induction false} NobodyThere(ts: seq<TTable>, x: PlayerId)
    requires forall t :: t in ts ==> Vacant(t)
    ensures Count(ts, PlayersOf, x) == 0
  {
    if ts != [] {
      assert Vacant(ts[0]) && ts[0].players == [];
      NobodyThere(ts[1..], x);
    }
  }

  lemma TakenCounts(ts: seq<TTable>, x: PlayerId, id: TableId)
    ensures Count(Keep(ts, Taken), PlayersOf, x) == Count(ts, PlayersOf, x)
    ensures Count(Keep(ts, Taken), IdOf, id) <= Count(ts, IdOf, id)
  {
    CountSplit(ts, Taken, Vacant, PlayersOf, x);
    CountSplit(ts, Taken, Vacant, IdOf, id);
    NobodyThere(Keep(ts, Vacant), x);
  }

  /** Dropping vacant tables drops nobody. */
  lemma TakenKeepsAll(ts: seq<TTable>)
    ensures Everyone(Keep(ts, Taken)) == Everyone(ts) && Total(Keep(ts, Taken)) == Total(ts)
  {
    forall x ensures Count(Keep(ts, Taken), PlayersOf, x) == Count(ts, PlayersOf, x) {
      TakenCounts(ts, x, Final);
    }
    SameEveryone(Keep(ts, Taken), ts);
    TotalIs(ts);
    TotalIs(Keep(ts, Taken));
  }

  // ---------------------------------------------------------------- dealing players out

  function CeilDiv(a: nat, b: nat): nat
    requires b > 0
  {
    (a + b - 1) / b
  }

  /** Every n-th player, starting with the k-th. */
  function Every(ids: seq<PlayerId>, n: nat, k: nat): seq<PlayerId>
    requires n > 0
  {
    if ids == [] then []
    else
      var last := |ids| - 1;
      Every(ids[..last], n, k) + if last % n == k then [ids[last]] else []
  }

  /** `buildTables`: as few tables as can hold everyone, dealt out round-robin. */
  function Built(ids: seq<PlayerId>, seats: nat): (r: seq<TTable>)
    requires seats > 0
  {
    if ids == [] then []
    else
      var n := CeilDiv(|ids|, seats);
      CeilDivIs(|ids|, seats);
      seq(n, k requires 0 <= k < n => TTable(Numbered(k + 1), Every(ids, n, k)))
  }

  lemma CeilDivIs(a: nat, b: nat)
    requires b > 0
    ensures CeilDiv(a, b) * b >= a && (a > 0 ==> CeilDiv(a, b) > 0 && (CeilDiv(a, b) - 1) * b < a)
  {
  }

  /** The k-th of n tables gets every n-th player: the sizes are as even as can be. */
  lemma {:induction false} EverySize(ids: seq<PlayerId>, n: nat, k: nat, q: nat, m: nat)
    requires n > 0 && k < n && |ids| == q * n + m && m < n
    ensures |Every(ids, n, k)| == q + if k < m then 1 else 0
    decreases |ids|
  {
    hide Every;
    EveryStep(ids, n, k);
    FullRounds(q, n, m);
    if ids == [] {
    } else if m > 0 {
      EverySize(ids[..|ids| - 1], n, k, q, m - 1);
    } else {
      EverySize(ids[..|ids| - 1], n, k, q - 1, n - 1);
    }
  }

  lemma EveryStep(ids: seq<PlayerId>, n: nat, k: nat)
    requires n > 0
    ensures ids == [] ==> Every(ids, n, k) == []
    ensures ids != [] ==>
      |Every(ids, n, k)| == |Every(ids[..|ids| - 1], n, k)| + if (|ids| - 1) % n == k then 1 else 0
  {
  }

  /** One player fewer: the round in hand gets shorter, or the last full round is broken into. */
  lemma FullRounds(q: nat, n: nat, m: nat)
    requires m < n
    ensures q * n + m == 0 ==> q == 0 && m == 0
    ensures m > 0 ==> (q * n + m - 1) % n == m - 1
    ensures m == 0 && q > 0 ==> q * n == (q - 1) * n + n && (q * n - 1) % n == n - 1
  {
    if m > 0 {
      QuotientRemainder(q, n, m - 1);
    } else if q > 0 {
      assert q * n == (q - 1) * n + n;
      QuotientRemainder(q - 1, n, n - 1);
    }
    if q > 0 {
      MulMono(1, q, n);
    }
  }

  /** Table sizes differ by at most one and none is over the limit. */
  lemma BuiltEven(ids: seq<PlayerId>, seats: nat, i: nat, j: nat)
    requires seats > 0 && i < |Built(ids, seats)| && j < |Built(ids, seats)|
    ensures var ts := Built(ids, seats);
      0 < |ts[i].players| <= seats && |ts[i].players| <= |ts[j].players| + 1
  {
    hide CeilDiv, Every;
    CeilDivIs(|ids|, seats);
    SizesEven(ids, seats, CeilDiv(|ids|, seats), i, j);
  }

  lemma SizesEven(ids: seq<PlayerId>, seats: nat, n: nat, i: nat, j: nat)
    requires seats > 0 && i < n && j < n && n * seats >= |ids| && (n - 1) * seats < |ids|
    ensures 0 < |Every(ids, n, i)| <= seats && |Every(ids, n, i)| <= |Every(ids, n, j)| + 1
  {
    hide Every;
    var q, m := |ids| / n, |ids| % n;
    assert |ids| == q * n + m;
    EverySize(ids, n, i, q, m);
    EverySize(ids, n, j, q, m);
    BuiltFits(|ids|, seats, n, q, m);
  }

  lemma BuiltFits(total: nat, seats: nat, n: nat, q: nat, m: nat)
    requires seats > 0 && n > 0 && total == q * n + m && m < n && n * seats >= total && (n - 1) * seats < total
    ensures q <= seats && (m > 0 ==> q < seats) && q > 0
  {
    assert n * seats == seats * n && (seats + 1) * n == seats * n + n && (n - 1) * seats == seats * (n - 1);
    if q > seats {
      MulMono(seats + 1, q, n);
    }
    if q == 0 {
      MulMono(1, seats, n - 1);
    }
  }

  /** As few tables as hold everyone: n tables are enough exactly when there are no more. */
  lemma BuiltFewest(ids: seq<PlayerId>, seats: nat, n: nat)
    requires seats > 0
    ensures |Built(ids, seats)| <= n <==> |ids| <= n * seats
  {
    if ids != [] {
      hide CeilDiv, Every;
      var m := CeilDiv(|ids|, seats);
      CeilDivIs(|ids|, seats);
      if m <= n {
        MulMono(m, n, seats);
      } else {
        MulMono(n, m - 1, seats);
      }
    }
  }

  /** The j-th player of every n-th, starting with the k-th. */
  lemma {:induction false} EveryAt(ids: seq<PlayerId>, n: nat, k: nat, j: nat)
    requires n > 0 && k < n && j * n + k < |ids|
    ensures j < |Every(ids, n, k)| && Every(ids, n, k)[j] == ids[j * n + k]
  {
    var last := |ids| - 1;
    if j * n + k < last {
      EveryAt(ids[..last], n, k, j);
    } else {
      QuotientRemainder(j, n, k);
      EverySize(ids[..last], n, k, j, k);
    }
  }

  /** Round-robin: of n tables the i-th player sits at table i mod n, in seat i / n. */
  lemma BuiltDeals(ids: seq<PlayerId>, seats: nat, i: nat)
    requires seats > 0 && i < |ids|
    ensures var ts := Built(ids, seats); var n := |ts|;
      && n > 0 && 0 <= i % n < n && 0 <= i / n < |ts[i % n].players| && ts[i % n].players[i / n] == ids[i]
  {
    hide CeilDiv, Every;
    CeilDivIs(|ids|, seats);
    var n := CeilDiv(|ids|, seats);
    assert i == i / n * n + i % n;
    EveryAt(ids, n, i % n, i / n);
  }

  /** The first k tables. */
  function Deals(ids: seq<PlayerId>, n: nat, k: nat): seq<TTable>
    requires 0 < n
  {
    seq(k, j requires 0 <= j < k => TTable(Numbered(j + 1), Every(ids, n, j)))
  }

  /** How often x is among the players who go to table k or a later one. */
  function Later(ids: seq<PlayerId>, n: nat, k: nat, x: PlayerId): nat
    requires 0 < n
  {
    if ids == [] then 0
    else
      var last := |ids| - 1;
      Later(ids[..last], n, k, x) + if last % n >= k && ids[last] == x then 1 else 0
  }

  lemma {:induction false} AllLater(ids: seq<PlayerId>, n: nat, x: PlayerId)
    requires 0 < n
    ensures Later(ids, n, 0, x) == multiset(ids)[x] && Later(ids, n, n, x) == 0
  {
    if ids != [] {
      var last := |ids| - 1;
      AllLater(ids[..last], n, x);
      assert ids == ids[..last] + [ids[last]];
    }
  }

  lemma {:induction false} OneDeal(ids: seq<PlayerId>, n: nat, k: nat, x: PlayerId)
    requires 0 < n
    ensures Later(ids, n, k, x) == Later(ids, n, k + 1, x) + multiset(Every(ids, n, k))[x]
  {
    if ids != [] {
      OneDeal(ids[..|ids| - 1], n, k, x);
    }
  }

  lemma CountOne(t: TTable, x: PlayerId)
    ensures Count([t], PlayersOf, x) == multiset(t.players)[x]
  {
    assert [t][1..] == [];
  }

  lemma {:induction false} DealtOut(ids: seq<PlayerId>, n: nat, k: nat, x: PlayerId)
    requires 0 < n && k <= n
    ensures Count(Deals(ids, n, k), PlayersOf, x) + Later(ids, n, k, x) == multiset(ids)[x]
    decreases k
  {
    hide Every, Later;
    if k == 0 {
      AllLater(ids, n, x);
    } else {
      DealtOut(ids, n, k - 1, x);
      var t := TTable(Numbered(k), Every(ids, n, k - 1));
      assert Deals(ids, n, k) == Deals(ids, n, k - 1) + [t];
      CountAppend(Deals(ids, n, k - 1), [t], PlayersOf, x);
      CountOne(t, x);
      OneDeal(ids, n, k - 1, x);
    }
  }

  /** Everyone is dealt a seat, exactly once. */
  lemma BuiltSeatsAll(ids: seq<PlayerId>, seats: nat)
    requires seats > 0
    ensures Everyone(Built(ids, seats)) == multiset(ids)
  {
    if ids != [] {
      var n := CeilDiv(|ids|, seats);
      CeilDivIs(|ids|, seats);
      assert Built(ids, seats) == Deals(ids, n, n);
      forall x: PlayerId
        ensures Everyone(Built(ids, seats))[x] == multiset(ids)[x]
      {
        DealtOut(ids, n, n, x);
        AllLater(ids, n, x);
        BagCount(Deals(ids, n, n), PlayersOf, x);
      }
    }
  }

  lemma CountNone(id: TableId)
    ensures Count([], IdOf, id) == 0
  {
  }

  lemma CountOneId(t: TTable, id: TableId)
    ensures Count([t], IdOf, id) == if t.id == id then 1 else 0
  {
    assert [t][1..] == [];
  }

  lemma {:induction false} DealIds(ids: seq<PlayerId>, n: nat, k: nat, t: TableId)
    requires 0 < n
    ensures Count(Deals(ids, n, k), IdOf, t) == if t.Numbered? && 1 <= t.n <= k then 1 else 0
    decreases k
  {
    hide Every, Count;
    if k == 0 {
      CountNone(t);
    } else {
      var last := TTable(Numbered(k), Every(ids, n, k - 1));
      DealIds(ids, n, k - 1, t);
      assert Deals(ids, n, k) == Deals(ids, n, k - 1) + [last];
      CountAppend(Deals(ids, n, k - 1), [last], IdOf, t);
      CountOneId(last, t);
    }
  }

  ghost predicate DistinctIds(ts: seq<TTable>) {
    forall t :: Count(ts, IdOf, t) <= 1
  }

  lemma BuiltIds(ids: seq<PlayerId>, seats: nat)
    requires seats > 0
    ensures DistinctIds(Built(ids, seats))
  {
    if ids != [] {
      var n := CeilDiv(|ids|, seats);
      CeilDivIs(|ids|, seats);
      assert Built(ids, seats) == Deals(ids, n, n);
      forall t
        ensures Count(Built(ids, seats), IdOf, t) <= 1
      {
        DealIds(ids, n, n, t);
      }
    }
  }

  /** The program's loop: push each player onto table i mod n. */
  method BuildTables(ids: seq<PlayerId>, seats: nat) returns (tables: seq<TTable>)
    requires seats > 0
    ensures tables == Built(ids, seats)
  {
    if |ids| == 0 {
      return [];
    }
    var n := CeilDiv(|ids|, seats);
    CeilDivIs(|ids|, seats);
    tables := seq(n, k requires 0 <= k < n => TTable(Numbered(k + 1), []));
    for i := 0 to |ids|
      invariant |tables| == n
      invariant forall k: nat :: k < n ==> tables[k] == TTable(Numbered(k + 1), Every(ids[..i], n, k))
    {
      assert ids[..i + 1][..i] == ids[..i];
      var t := tables[i % n];
      tables := tables[i % n := t.(players := t.players + [ids[i]])];
    }
    assert ids[..|ids|] == ids;
  }

  // ---------------------------------------------------------------- merging tables

  predicate Small(t: TTable) {
    |t.players| <= 2
  }

  predicate Big(t: TTable) {
    |t.players| > 2
  }

  /** The first table with a free seat. */
  function FirstDonor(big: seq<TTable>, seats: nat): (r: Option<nat>)
    ensures match r
            case None => forall t :: t in big ==> |t.players| >= seats
            case Some(d) => d < |big| && |big[d].players| < seats
  {
    if big == [] then None
    else if |big[0].players| < seats then Some(0)
    else match FirstDonor(big[1..], seats)
      case None => None
      case Some(d) => Some(d + 1)
  }

  /** How many players move: until the small table is empty or the other is full. */
  function Moving(s: TTable, d: TTable, seats: nat): nat {
    if |d.players| >= seats then 0 else Min(|s.players|, seats - |d.players|)
  }

  /** After k players moved from a small table to table d. */
  function Poured(big: seq<TTable>, d: nat, s: TTable, k: nat): (seq<TTable>, TTable)
    requires d < |big| && k <= |s.players|
  {
    (big[d := big[d].(players := big[d].players + s.players[..k])], s.(players := s.players[k..]))
  }

  /** Pour one small table into the first table with room. */
  function PourOne(big: seq<TTable>, s: TTable, seats: nat): (r: (seq<TTable>, TTable))
    ensures |r.0| == |big|
  {
    match FirstDonor(big, seats)
    case None => (big, s)
    case Some(d) => Poured(big, d, s, Moving(s, big[d], seats))
  }

  function Drained(big: seq<TTable>, small: seq<TTable>, seats: nat): (r: (seq<TTable>, seq<TTable>))
    ensures |r.0| == |big| && |r.1| == |small|
    decreases |small|
  {
    if small == [] then (big, [])
    else
      var (b, s) := PourOne(big, small[0], seats);
      var (bs, rest) := Drained(b, small[1..], seats);
      (bs, [s] + rest)
  }

  function AllPlayers(ts: seq<TTable>): seq<PlayerId> {
    if ts == [] then [] else ts[0].players + AllPlayers(ts[1..])
  }

  /** `rebalanceTables`. */
  function Rebalanced(tables: seq<TTable>, seats: nat): seq<TTable> {
    var live := Keep(tables, Taken);
    if Total(live) <= seats then [TTable(if live == [] then Final else live[0].id, AllPlayers(live))]
    else
      var small, big := Keep(live, Small), Keep(live, Big);
      if small == [] || big == [] then live
      else
        var (bs, ss) := Drained(big, small, seats);
        Keep(bs + ss, Taken)
  }

  lemma {:induction false} AllPlayersBag(ts: seq<TTable>)
    ensures multiset(AllPlayers(ts)) == Everyone(ts)
  {
    if ts != [] {
      AllPlayersBag(ts[1..]);
    }
  }

  lemma PouredCounts(big: seq<TTable>, d: nat, s: TTable, k: nat, x: PlayerId, id: TableId)
    requires d < |big| && k <= |s.players|
    ensures var (b, s') := Poured(big, d, s, k);
      && Count(b, PlayersOf, x) + PlayersOf(s')[x] == Count(big, PlayersOf, x) + PlayersOf(s)[x]
      && Count(b, IdOf, id) == Count(big, IdOf, id) && s'.id == s.id
  {
    var t := big[d].(players := big[d].players + s.players[..k]);
    assert s.players == s.players[..k] + s.players[k..];
    CountUpdate(big, d, t, PlayersOf, x);
    CountUpdate(big, d, t, IdOf, id);
  }

  lemma {:induction false} DrainedCounts(big: seq<TTable>, small: seq<TTable>, seats: nat, x: PlayerId, id: TableId)
    ensures var (bs, ss) := Drained(big, small, seats);
      && Count(bs, PlayersOf, x) + Count(ss, PlayersOf, x) == Count(big, PlayersOf, x) + Count(small, PlayersOf, x)
      && Count(bs, IdOf, id) + Count(ss, IdOf, id) == Count(big, IdOf, id) + Count(small, IdOf, id)
    decreases |small|
  {
    hide Poured, PlayersOf, IdOf;
    if small != [] {
      var (b, s) := PourOne(big, small[0], seats);
      var d := FirstDonor(big, seats);
      if d.Some? {
        PouredCounts(big, d.value, small[0], Moving(small[0], big[d.value], seats), x, id);
      }
      SameId(small[0], s);
      var (bs, rest) := Drained(b, small[1..], seats);
      DrainedCounts(b, small[1..], seats, x, id);
      assert ([s] + rest)[1..] == rest;
    }
  }

  lemma SameId(a: TTable, b: TTable)
    ensures a.id == b.id ==> IdOf(a) == IdOf(b)
  {
  }

  lemma {:induction false} DrainedFits(big: seq<TTable>, small: seq<TTable>, seats: nat)
    requires WithinCap(big, seats) && WithinCap(small, seats)
    ensures WithinCap(Drained(big, small, seats).0, seats) && WithinCap(Drained(big, small, seats).1, seats)
    decreases |small|
  {
    if small != [] {
      var (b, s) := PourOne(big, small[0], seats);
      DrainedFits(b, small[1..], seats);
    }
  }

  predicate WithinCap(ts: seq<TTable>, seats: nat) {
    forall t :: t in ts ==> |t.players| <= seats
  }

  lemma MergedCounts(live: seq<TTable>, seats: nat, x: PlayerId, id: TableId)
    ensures var (bs, ss) := Drained(Keep(live, Big), Keep(live, Small), seats);
      && Count(bs + ss, PlayersOf, x) == Count(live, PlayersOf, x) && Count(bs + ss, IdOf, id) == Count(live, IdOf, id)
  {
    hide Drained;
    var small, big := Keep(live, Small), Keep(live, Big);
    var (bs, ss) := Drained(big, small, seats);
    CountSplit(live, Small, Big, PlayersOf, x);
    CountSplit(live, Small, Big, IdOf, id);
    DrainedCounts(big, small, seats, x, id);
    CountAppend(bs, ss, PlayersOf, x);
    CountAppend(bs, ss, IdOf, id);
  }

  /** Merging keeps the players: nobody is lost and nobody is seated twice. */
  lemma RebalancedKeeps(tables: seq<TTable>, seats: nat)
    ensures Everyone(Rebalanced(tables, seats)) == Everyone(tables)
  {
    hide Drained;
    var live := Keep(tables, Taken);
    TakenKeepsAll(tables);
    if Total(live) <= seats {
      AllPlayersBag(live);
      EveryoneAtOne(Rebalanced(tables, seats)[0]);
    } else if Keep(live, Small) != [] && Keep(live, Big) != [] {
      var (bs, ss) := Drained(Keep(live, Big), Keep(live, Small), seats);
      forall x ensures Count(bs + ss, PlayersOf, x) == Count(live, PlayersOf, x) { MergedCounts(live, seats, x, Final); }
      SameEveryone(bs + ss, live);
      TakenKeepsAll(bs + ss);
    }
  }

  /** While anyone is left, every table keeps an id it had, and no two tables share one. */
  lemma RebalancedIds(tables: seq<TTable>, seats: nat, id: TableId)
    requires Total(tables) > 0
    ensures Count(Rebalanced(tables, seats), IdOf, id) <= Count(tables, IdOf, id)
  {
    hide Drained;
    var live := Keep(tables, Taken);
    TakenKeepsAll(tables);
    TakenCounts(tables, 0, id);
    if Total(live) <= seats {
    } else if Keep(live, Small) != [] && Keep(live, Big) != [] {
      var (bs, ss) := Drained(Keep(live, Big), Keep(live, Small), seats);
      MergedCounts(live, seats, 0, id);
      TakenCounts(bs + ss, 0, id);
    }
  }

  /** No table ends up over the limit, and while anyone is left no table is vacant. */
  lemma RebalancedFits(tables: seq<TTable>, seats: nat)
    requires WithinCap(tables, seats)
    ensures WithinCap(Rebalanced(tables, seats), seats)
    ensures Total(tables) > 0 ==> forall t :: t in Rebalanced(tables, seats) ==> Taken(t)
  {
    hide Drained;
    var live := Keep(tables, Taken);
    TakenKeepsAll(tables);
    TotalIs(live);
    AllPlayersBag(live);
    assert |AllPlayers(live)| == |multiset(AllPlayers(live))|;
    DrainedFits(Keep(live, Big), Keep(live, Small), seats);
  }

  /** Everyone who fits at one table ends up at one table. */
  lemma RebalancedMerges(tables: seq<TTable>, seats: nat)
    requires Total(tables) <= seats
    ensures |Rebalanced(tables, seats)| == 1
  {
    TakenKeepsAll(tables);
  }

  // ---------------------------------------------------------------- which tables are merged

  /** The tables of one or two players, and the larger ones, each in their order. */
  ghost predicate BySize(tables: seq<TTable>, small: seq<TTable>, big: seq<TTable>) {
    && small == Keep(tables, (t: TTable) => 1 <= |t.players| <= 2)
    && big == Keep(tables, (t: TTable) => |t.players| >= 3)
  }

  lemma {:induction false} KeepTwice(ts: seq<TTable>, f: TTable -> bool, g: TTable -> bool, both: TTable -> bool)
    requires forall t :: both(t) <==> f(t) && g(t)
    ensures Keep(Keep(ts, f), g) == Keep(ts, both)
  {
    if ts != [] {
      KeepTwice(ts[1..], f, g, both);
      if f(ts[0]) {
        assert Keep(ts, f)[1..] == Keep(ts[1..], f);
      } else {
        assert Keep(ts, f) == Keep(ts[1..], f) && Keep(ts, both) == Keep(ts[1..], both);
      }
    }
  }

  lemma {:induction false} KeepAppend(a: seq<TTable>, b: seq<TTable>, f: TTable -> bool)
    ensures Keep(a + b, f) == Keep(a, f) + Keep(b, f)
  {
    if a == [] {
      assert a + b == b;
    } else {
      assert (a + b)[1..] == a[1..] + b;
      KeepAppend(a[1..], b, f);
    }
  }

  lemma {:induction false} KeepAll(ts: seq<TTable>, f: TTable -> bool)
    requires forall t :: t in ts ==> f(t)
    ensures Keep(ts, f) == ts
  {
    if ts != [] {
      KeepAll(ts[1..], f);
    }
  }

  lemma {:induction false} KeepNone(ts: seq<TTable>, f: TTable -> bool)
    requires forall t :: t in ts ==> !f(t)
    ensures Keep(ts, f) == []
  {
    if ts != [] {
      KeepNone(ts[1..], f);
    }
  }

  lemma SizesAre(tables: seq<TTable>, small: seq<TTable>, big: seq<TTable>)
    requires BySize(tables, small, big)
    ensures Keep(Keep(tables, Taken), Small) == small && Keep(Keep(tables, Taken), Big) == big
    ensures (forall t :: t in small ==> 1 <= |t.players| <= 2) && (forall t :: t in big ==> |t.players| >= 3)
  {
    KeepTwice(tables, Taken, Small, (t: TTable) => 1 <= |t.players| <= 2);
    KeepTwice(tables, Taken, Big, (t: TTable) => |t.players| >= 3);
  }

  /** Unless there are both, with more players than one table holds, nobody moves. */
  lemma NothingToMerge(tables: seq<TTable>, seats: nat, small: seq<TTable>, big: seq<TTable>)
    requires BySize(tables, small, big) && Total(tables) > seats && (small == [] || big == [])
    ensures Rebalanced(tables, seats) == Keep(tables, Taken)
  {
    TakenKeepsAll(tables);
    SizesAre(tables, small, big);
  }

  lemma Merges(tables: seq<TTable>, seats: nat, small: seq<TTable>, big: seq<TTable>)
    requires BySize(tables, small, big) && Total(tables) > seats && small != [] && big != []
    ensures var (bs, ss) := Drained(big, small, seats); Rebalanced(tables, seats) == Keep(bs, Taken) + Keep(ss, Taken)
  {
    hide Drained, Keep, Total;
    TakenKeepsAll(tables);
    SizesAre(tables, small, big);
    var r := Drained(big, small, seats);
    KeepAppend(r.0, r.1, Taken);
  }

  lemma {:induction false} DonorIs(big: seq<TTable>, seats: nat, d: nat)
    requires d < |big| && |big[d].players| < seats && forall i: nat :: i < d ==> |big[i].players| >= seats
    ensures FirstDonor(big, seats) == Some(d)
  {
    if d > 0 {
      assert |big[0].players| >= seats;
      DonorIs(big[1..], seats, d - 1);
    }
  }

  lemma PourAll(big: seq<TTable>, s: TTable, seats: nat, d: nat)
    requires d < |big| && (forall i: nat :: i < d ==> |big[i].players| >= seats)
    requires Taken(s) && |big[d].players| + |s.players| <= seats
    ensures PourOne(big, s, seats) == (big[d := big[d].(players := big[d].players + s.players)], s.(players := []))
  {
    hide FirstDonor;
    DonorIs(big, seats, d);
    assert s.players[..|s.players|] == s.players && s.players[|s.players|..] == [];
  }

  lemma {:induction false} DrainedInto(big: seq<TTable>, small: seq<TTable>, seats: nat, d: nat)
    requires d < |big| && (forall i: nat :: i < d ==> |big[i].players| >= seats)
    requires |big[d].players| + Total(small) <= seats && forall t :: t in small ==> Taken(t)
    ensures Drained(big, small, seats).0 == big[d := big[d].(players := big[d].players + AllPlayers(small))]
    ensures forall t :: t in Drained(big, small, seats).1 ==> !Taken(t)
    decreases |small|
  {
    hide PourOne, Moving, FirstDonor;
    if small == [] {
      assert big[d].players + [] == big[d].players;
      assert big[d].(players := big[d].players) == big[d];
    } else {
      var s := small[0];
      assert Taken(s);
      var b := big[d := big[d].(players := big[d].players + s.players)];
      PourAll(big, s, seats, d);
      DrainedInto(b, small[1..], seats, d);
      assert big[d].players + s.players + AllPlayers(small[1..]) == big[d].players + AllPlayers(small);
    }
  }

  /**
   * If the players of all small tables together fit the free seats of the first larger table that has any, exactly the
   * larger tables remain, in order, with all those players at that table.
   */
  lemma AllMerged(tables: seq<TTable>, seats: nat, small: seq<TTable>, big: seq<TTable>, d: nat)
    requires BySize(tables, small, big) && Total(tables) > seats && small != []
    requires d < |big| && (forall i: nat :: i < d ==> |big[i].players| >= seats) && |big[d].players| + Total(small) <= seats
    ensures Rebalanced(tables, seats) == big[d := big[d].(players := big[d].players + AllPlayers(small))]
  {
    hide Drained, Keep, Total, AllPlayers, Rebalanced;
    Merges(tables, seats, small, big);
    SizesAre(tables, small, big);
    DrainedInto(big, small, seats, d);
    var r := Drained(big, small, seats);
    assert forall t :: t in r.0 ==> Taken(t);
    KeepAll(r.0, Taken);
    KeepNone(r.1, Taken);
  }

  /** A table after others have been poured into it: the same, with players added behind. */
  predicate Grown(t: TTable, after: TTable) {
    after.id == t.id && t.players <= after.players
  }

  /** A table after its first players have left it. */
  predicate Shrunk(t: TTable, after: TTable) {
    after.id == t.id && |after.players| <= |t.players| && after.players == t.players[|t.players| - |after.players|..]
  }

  lemma {:induction false} DrainedGrows(big: seq<TTable>, small: seq<TTable>, seats: nat)
    ensures forall i :: 0 <= i < |big| ==> Grown(big[i], Drained(big, small, seats).0[i])
    ensures forall a :: 0 <= a < |small| ==> Shrunk(small[a], Drained(big, small, seats).1[a])
    decreases |small|
  {
    if small != [] {
      var (b, s) := PourOne(big, small[0], seats);
      DrainedGrows(b, small[1..], seats);
      PourGrows(big, small[0], seats);
      var r := Drained(b, small[1..], seats);
      forall i | 0 <= i < |big|
        ensures Grown(big[i], r.0[i])
      {
        assert Grown(big[i], b[i]) && Grown(b[i], r.0[i]);
      }
    }
  }

  lemma PourGrows(big: seq<TTable>, s: TTable, seats: nat)
    ensures var (b, s') := PourOne(big, s, seats);
      && (forall i :: 0 <= i < |big| ==> Grown(big[i], b[i])) && Shrunk(s, s')
      && (FirstDonor(big, seats).Some? && Taken(s') ==> |b[FirstDonor(big, seats).value].players| >= seats)
  {
    assert s.players[0..] == s.players;
  }

  /** The tables that had a free seat and have none left. */
  function Filled(before: seq<TTable>, after: seq<TTable>, seats: nat): set<nat>
    requires |after| == |before|
  {
    set i: nat | i < |before| && |before[i].players| < seats <= |after[i].players|
  }

  predicate HasRoom(ts: seq<TTable>, seats: nat) {
    exists i: nat :: i < |ts| && |ts[i].players| < seats
  }

  lemma {:induction false} LeftAreFew(big: seq<TTable>, small: seq<TTable>, seats: nat)
    requires HasRoom(Drained(big, small, seats).0, seats)
    ensures |Keep(Drained(big, small, seats).1, Taken)| <= |Filled(big, Drained(big, small, seats).0, seats)|
    decreases |small|
  {
    if small != [] {
      var (b, s) := PourOne(big, small[0], seats);
      var (bs, rest) := Drained(b, small[1..], seats);
      LeftAreFew(b, small[1..], seats);
      PourGrows(big, small[0], seats);
      DrainedGrows(b, small[1..], seats);
      assert forall i :: 0 <= i < |big| ==> Grown(big[i], b[i]) && Grown(b[i], bs[i]);
      var i: nat :| i < |bs| && |bs[i].players| < seats;
      assert |big[i].players| < seats;
      var d := FirstDonor(big, seats).value;
      FilledMore(big, b, bs, seats, d, Taken(s));
    }
  }

  lemma FilledMore(big: seq<TTable>, b: seq<TTable>, bs: seq<TTable>, seats: nat, d: nat, full: bool)
    requires |big| == |b| == |bs| && d < |big| && |big[d].players| < seats
    requires forall i :: 0 <= i < |big| ==> Grown(big[i], b[i]) && Grown(b[i], bs[i])
    requires full ==> |b[d].players| >= seats
    ensures |Filled(big, bs, seats)| >= |Filled(b, bs, seats)| + if full then 1 else 0
  {
    if full {
      assert |Filled(b, bs, seats) + {d}| == |Filled(b, bs, seats)| + 1;
      SubsetSize(Filled(b, bs, seats) + {d}, Filled(big, bs, seats));
    } else {
      SubsetSize(Filled(b, bs, seats), Filled(big, bs, seats));
    }
  }

  /**
   * How tables are merged while more players are left than one table holds: each larger table keeps its players in
   * front and its id, each small one its last players, if any are left there; and as long as a larger table still has a
   * free seat, no more small tables are left than larger ones have been filled.
   */
  lemma MergedTables(tables: seq<TTable>, seats: nat, small: seq<TTable>, big: seq<TTable>)
    returns (bs: seq<TTable>, ss: seq<TTable>)
    requires BySize(tables, small, big) && Total(tables) > seats && small != [] && big != []
    ensures |bs| == |big| && |ss| == |small| && Rebalanced(tables, seats) == bs + Keep(ss, Taken)
    ensures forall i :: 0 <= i < |big| ==> Grown(big[i], bs[i])
    ensures forall a :: 0 <= a < |small| ==> Shrunk(small[a], ss[a])
    ensures HasRoom(bs, seats) ==> |Keep(ss, Taken)| <= |Filled(big, bs, seats)|
    ensures !HasRoom(big, seats) ==> bs == big && ss == small
  {
    hide Drained, Keep, Total, Rebalanced;
    Merges(tables, seats, small, big);
    SizesAre(tables, small, big);
    var r := Drained(big, small, seats);
    bs, ss := r.0, r.1;
    DrainedGrows(big, small, seats);
    forall t | t in bs
      ensures Taken(t)
    {
      var i :| 0 <= i < |bs| && bs[i] == t;
      assert Grown(big[i], bs[i]) && big[i] in big;
    }
    KeepAll(bs, Taken);
    if HasRoom(bs, seats) {
      LeftAreFew(big, small, seats);
    }
    if !HasRoom(big, seats) {
      NoneMoves(big, small, seats);
    }
  }

  lemma {:induction false} NoneMoves(big: seq<TTable>, small: seq<TTable>, seats: nat)
    requires !HasRoom(big, seats)
    ensures Drained(big, small, seats) == (big, small)
    decreases |small|
  {
    if small != [] {
      NoneMoves(big, small[1..], seats);
      assert FirstDonor(big, seats).None?;
      assert small == [small[0]] + small[1..];
    }
  }

  /** The number of tables never grows, except that from no table at all an empty final one is made. */
  lemma TableCountFalls(tables: seq<TTable>, seats: nat)
    ensures |Rebalanced(tables, seats)| <= |tables| <==> tables != []
  {
    hide Drained;
    var live := Keep(tables, Taken);
    CountSplit(live, Small, Big, IdOf, Final);
    if tables == [] {
      assert live == [];
    }
  }

  /** The program's loops: pour each small table, one player at a time, into the first table with room. */
  method RebalanceTables(tables: seq<TTable>, seats: nat) returns (r: seq<TTable>)
    ensures r == Rebalanced(tables, seats)
  {
    hide PourOne, Keep, Total, AllPlayers;
    var live := Keep(tables, Taken);
    if Total(live) <= seats {
      return [TTable(if |live| == 0 then Final else live[0].id, AllPlayers(live))];
    }
    var small, big := Keep(live, Small), Keep(live, Big);
    if |small| == 0 || |big| == 0 {
      return live;
    }
    ghost var goal := Drained(big, small, seats);
    assert small[0..] == small && small[..0] + goal.1 == goal.1;
    for a := 0 to |small|
      invariant |small| == |goal.1|
      invariant goal.0 == Drained(big, small[a..], seats).0 && goal.1 == small[..a] + Drained(big, small[a..], seats).1
    {
      ghost var s0, rest := small[a], small[a + 1..];
      ghost var step := PourOne(big, s0, seats);
      assert small[a..] == [s0] + rest;
      var s;
      big, s := Pour(big, small[a], seats);
      small := small[a := s];
      assert small[a + 1..] == rest;
    }
    assert small[|small|..] == [] && small[..|small|] + [] == small;
    assert goal == (big, small);
    return Keep(big + small, Taken);
  }

  lemma PouredNone(big: seq<TTable>, d: nat, s: TTable)
    requires d < |big|
    ensures Poured(big, d, s, 0) == (big, s)
  {
    var t := big[d].(players := big[d].players + s.players[..0]);
    assert t == big[d] && big[d := t] == big;
    assert big[d].players + s.players[..0] == big[d].players && s.players[0..] == s.players;
  }

  lemma PouredMore(big: seq<TTable>, d: nat, s: TTable, k: nat)
    requires d < |big| && k < |s.players|
    ensures var (b, s') := Poured(big, d, s, k);
      Poured(big, d, s, k + 1) == (b[d := b[d].(players := b[d].players + [s'.players[0]])], s'.(players := s'.players[1..]))
  {
    var (b, s') := Poured(big, d, s, k);
    assert s'.players[1..] == s.players[k + 1..];
    assert b[d].players + [s'.players[0]] == big[d].players + s.players[..k + 1];
    assert b[d := big[d].(players := big[d].players + s.players[..k + 1])] == Poured(big, d, s, k + 1).0;
  }

  method Pour(big: seq<TTable>, small: TTable, seats: nat) returns (b: seq<TTable>, s: TTable)
    ensures (b, s) == PourOne(big, small, seats)
  {
    var donor := FirstDonor(big, seats);
    b, s := big, small;
    if donor.None? {
      return;
    }
    var d := donor.value;
    ghost var k := 0;
    PouredNone(big, d, small);
    while |s.players| > 0 && |b[d].players| < seats
      invariant 0 <= k <= |small.players| && k <= seats - |big[d].players|
      invariant (b, s) == Poured(big, d, small, k)
      decreases |s.players|
    {
      PouredMore(big, d, small, k);
      b := b[d := b[d].(players := b[d].players + [s.players[0]])];
      s := s.(players := s.players[1..]);
      k := k + 1;
    }
    assert k == Moving(small, big[d], seats);
  }
}
