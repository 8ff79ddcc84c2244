/** The evaluator: the value of five cards, and the best five of seven. */
module Evaluator {
  import opened Common
  import opened Cards
  import opened HandPacking
  import opened PokerHands

  // ---------------------------------------------------------------- groups of equal ranks

  datatype Group = Group(rank: nat, n: nat)

  /** Ranks present in the bag with their counts, from rank `top` down. */
  function GroupsDown(b: multiset<int>, top: int): seq<Group>
    decreases top + 1
  {
    if top < 0 then []
    else (if b[top] > 0 then [Group(top, b[top])] else []) + GroupsDown(b, top - 1)
  }

  predicate Before(g: Group, k: Group) {
    g.n > k.n || (g.n == k.n && g.rank > k.rank)
  }

  function InsertGroup(g: Group, s: seq<Group>): seq<Group> {
    if s == [] || Before(g, s[0]) then [g] + s else [s[0]] + InsertGroup(g, s[1..])
  }

  /** `groups.sort`: by count, then by rank, both descending. */
  function SortGroups(s: seq<Group>): seq<Group> {
    if s == [] then [] else InsertGroup(s[0], SortGroups(s[1..]))
  }

  function Groups(b: multiset<int>): seq<Group> {
    SortGroups(GroupsDown(b, 12))
  }

  function GroupRanks(s: seq<Group>): (v: seq<nat>)
    ensures |v| == |s| && forall i :: 0 <= i < |s| ==> v[i] == s[i].rank
  {
    if s == [] then [] else [s[0].rank] + GroupRanks(s[1..])
  }

  function SumN(s: seq<Group>): nat {
    if s == [] then 0 else s[0].n + SumN(s[1..])
  }

  ghost predicate SortedGroups(s: seq<Group>) {
    forall i, j :: 0 <= i < j < |s| ==> Before(s[i], s[j])
  }

  lemma {:induction false} InsertIs(g: Group, s: seq<Group>)
    requires SortedGroups(s) && forall i :: 0 <= i < |s| ==> s[i].rank != g.rank
    ensures SortedGroups(InsertGroup(g, s)) && SumN(InsertGroup(g, s)) == g.n + SumN(s)
    ensures forall x :: x in InsertGroup(g, s) <==> x == g || x in s
  {
    if s == [] || Before(g, s[0]) {
      assert ([g] + s)[1..] == s;
    } else {
      assert forall i :: 0 <= i < |s[1..]| ==> s[1..][i] == s[i + 1];
      InsertIs(g, s[1..]);
      var t := InsertGroup(g, s[1..]);
      assert ([s[0]] + t)[1..] == t;
      forall j | 0 <= j < |t|
        ensures Before(s[0], t[j])
      {
        assert t[j] in t;
      }
    }
  }

  ghost predicate DistinctRanks(s: seq<Group>) {
    forall i, j :: 0 <= i < j < |s| ==> s[i].rank != s[j].rank
  }

  lemma {:induction false} SortIs(s: seq<Group>)
    requires DistinctRanks(s)
    ensures SortedGroups(SortGroups(s)) && SumN(SortGroups(s)) == SumN(s)
    ensures forall x :: x in SortGroups(s) <==> x in s
  {
    if s != [] {
      SortIs(s[1..]);
      var t := SortGroups(s[1..]);
      forall i | 0 <= i < |t|
        ensures t[i].rank != s[0].rank
      {
        assert t[i] in s[1..];
      }
      InsertIs(s[0], t);
    }
  }

  lemma GroupsDownStep(b: multiset<int>, top: int)
    ensures top < 0 ==> GroupsDown(b, top) == []
    ensures top >= 0 ==>
      GroupsDown(b, top) == (if b[top] > 0 then [Group(top, b[top])] else []) + GroupsDown(b, top - 1)
  {
  }

  /** The groups are those of the ranks that occur, up to the top. */
  lemma {:induction false} GroupsDownHas(b: multiset<int>, top: int, g: Group)
    ensures g in GroupsDown(b, top) <==> g.rank <= top && g.n == b[g.rank] > 0
    decreases top + 1
  {
    hide GroupsDown;
    GroupsDownStep(b, top);
    if top >= 0 {
      GroupsDownHas(b, top - 1, g);
    }
  }

  lemma {:induction false} GroupsDownDistinct(b: multiset<int>, top: int)
    ensures DistinctRanks(GroupsDown(b, top))
    decreases top + 1
  {
    hide GroupsDown;
    GroupsDownStep(b, top);
    if top >= 0 {
      var rest := GroupsDown(b, top - 1);
      GroupsDownDistinct(b, top - 1);
      forall j | 0 <= j < |rest|
        ensures rest[j].rank != top
      {
        assert rest[j] in rest;
        GroupsDownHas(b, top - 1, rest[j]);
      }
    }
  }

  lemma GroupsDownIs(b: multiset<int>, top: int)
    ensures DistinctRanks(GroupsDown(b, top))
    ensures forall g :: g in GroupsDown(b, top) <==> g.rank <= top && g.n == b[g.rank] > 0
  {
    hide GroupsDown;
    GroupsDownDistinct(b, top);
    forall g
      ensures g in GroupsDown(b, top) <==> g.rank <= top && g.n == b[g.rank] > 0
    {
      GroupsDownHas(b, top, g);
    }
  }

  lemma {:induction false} GroupsDownSum(b: multiset<int>, top: int)
    requires forall r :: r in b ==> 0 <= r <= top
    ensures SumN(GroupsDown(b, top)) == |b|
    decreases top + 1
  {
    if top < 0 {
      assert forall r :: r !in b;
      assert b == multiset{};
    } else {
      var c := b[top := 0];
      GroupsDownSum(c, top - 1);
      GroupsDownSame(b, c, top - 1);
      assert b == c[top := b[top]];
      assert |b| == |c| + b[top];
      if b[top] > 0 {
        assert GroupsDown(b, top)[1..] == GroupsDown(b, top - 1);
      } else {
        assert GroupsDown(b, top) == GroupsDown(b, top - 1);
      }
    }
  }

  lemma {:induction false} GroupsDownSame(b: multiset<int>, c: multiset<int>, top: int)
    requires forall r :: r <= top ==> b[r] == c[r]
    ensures GroupsDown(b, top) == GroupsDown(c, top)
    decreases top + 1
  {
    if top >= 0 {
      GroupsDownSame(b, c, top - 1);
    }
  }

  /** The groups of a five-card bag: sorted, complete, and five cards in all. */
  ghost predicate GoodGroups(b: multiset<int>, s: seq<Group>) {
    && SortedGroups(s) && SumN(s) == 5
    && (forall g :: g in s <==> g.rank <= 12 && g.n == b[g.rank] > 0)
  }

  lemma GroupsAre(h: seq<Card>)
    requires |h| == 5
    ensures GoodGroups(Bag(h), Groups(Bag(h)))
  {
    var b := Bag(h);
    forall r | r in b ensures 0 <= r <= 12 {
      BagMember(h, r);
    }
    BagMember(h, 0);
    GroupsDownIs(b, 12);
    GroupsDownSum(b, 12);
    SortIs(GroupsDown(b, 12));
  }

  /** The group ranks are the bag's ranking. */
  lemma GroupsRank(b: multiset<int>, s: seq<Group>)
    requires GoodGroups(b, s) && forall r :: r in b ==> 0 <= r <= 12
    ensures IsRanking(b, GroupRanks(s))
  {
    var v := GroupRanks(s);
    forall r: nat
      ensures r in v <==> r in b
    {
      if r in v {
        var i :| 0 <= i < |v| && v[i] == r;
        assert s[i] in s;
      }
      if r in b {
        assert Group(r, b[r]) in s;
        var i :| 0 <= i < |s| && s[i] == Group(r, b[r]);
        assert v[i] == r;
      }
    }
    forall i, j | 0 <= i < j < |v|
      ensures Outranks(b, v[i], v[j])
    {
      assert s[i] in s && s[j] in s && Before(s[i], s[j]);
    }
  }

  // ---------------------------------------------------------------- the seven shapes of five cards

  lemma {:induction false} SumAtLeast(s: seq<Group>)
    requires forall g :: g in s ==> g.n > 0
    ensures SumN(s) >= |s|
  {
    if s != [] {
      assert s[0] in s;
      SumAtLeast(s[1..]);
    }
  }

  function N(s: seq<Group>, i: nat): nat {
    if i < |s| then s[i].n else 0
  }

  lemma SumOfFive(s: seq<Group>)
    requires |s| <= 5
    ensures SumN(s) == N(s, 0) + N(s, 1) + N(s, 2) + N(s, 3) + N(s, 4)
  {
  }

  /** Five cards fall into one of seven shapes, fixed by the two largest groups. */
  lemma Shapes(b: multiset<int>, s: seq<Group>)
    requires GoodGroups(b, s)
    ensures 1 <= |s| <= 5 && forall i :: 0 <= i < |s| ==> N(s, i) > 0
    ensures N(s, 0) == 5 ==> |s| == 1
    ensures N(s, 0) == 4 ==> |s| == 2
    ensures N(s, 0) == 3 ==> (if N(s, 1) == 2 then |s| == 2 else |s| == 3 && N(s, 1) == N(s, 2) == 1)
    ensures N(s, 0) == 2 ==> (if N(s, 1) == 2 then |s| == 3 && N(s, 2) == 1 else |s| == 4 && N(s, 1) == N(s, 2) == N(s, 3) == 1)
    ensures N(s, 0) == 1 ==> |s| == 5
    ensures 1 <= N(s, 0) <= 5
  {
    SumAtLeast(s);
    SumOfFive(s);
    forall i | 0 <= i < |s|
      ensures N(s, i) > 0
    {
      assert s[i] in s;
    }
    forall i | 0 <= i < |s| - 1
      ensures N(s, i) >= N(s, i + 1)
    {
      assert Before(s[i], s[i + 1]);
    }
    assert N(s, 0) >= N(s, 1) >= N(s, 2) >= N(s, 3) >= N(s, 4);
  }

  /** n of a kind is a group of n. */
  lemma KindIsGroup(b: multiset<int>, s: seq<Group>, n: nat)
    requires GoodGroups(b, s) && n > 0 && forall r :: r in b ==> 0 <= r <= 12
    ensures OfAKind(b, n) <==> exists i :: 0 <= i < |s| && N(s, i) == n
  {
    if r :| r in b && b[r] == n {
      assert Group(r, n) in s;
      var i :| 0 <= i < |s| && s[i] == Group(r, n);
      assert N(s, i) == n;
    }
    if i :| 0 <= i < |s| && N(s, i) == n {
      assert s[i] in s;
      assert s[i].rank in b;
    }
  }

  lemma PairsAreGroups(b: multiset<int>, s: seq<Group>)
    requires GoodGroups(b, s) && forall r :: r in b ==> 0 <= r <= 12
    ensures TwoPairs(b) <==> N(s, 0) == 2 && N(s, 1) == 2
  {
    Shapes(b, s);
    if r, t :| r in b && t in b && r != t && b[r] == 2 && b[t] == 2 {
      assert Group(r, 2) in s && Group(t, 2) in s;
      var i :| 0 <= i < |s| && s[i] == Group(r, 2);
      var j :| 0 <= j < |s| && s[j] == Group(t, 2);
      assert N(s, i) == 2 && N(s, j) == 2 && i != j;
    }
    if N(s, 0) == 2 && N(s, 1) == 2 {
      assert s[0] in s && s[1] in s && Before(s[0], s[1]);
      assert s[0].rank in b && s[1].rank in b;
    }
  }

  // ---------------------------------------------------------------- straights

  /** The distinct ranks, highest first: `uniqueSortedDesc`. */
  function UniqueDesc(b: multiset<int>): seq<nat> {
    GroupRanks(GroupsDown(b, 12))
  }

  lemma RanksBelow(b: multiset<int>, top: int)
    ensures forall j :: 0 <= j < |GroupsDown(b, top)| ==> GroupsDown(b, top)[j].rank <= top
  {
  }

  lemma {:induction false} GroupsDescend(b: multiset<int>, top: int)
    ensures forall i, j :: 0 <= i < j < |GroupsDown(b, top)| ==> GroupsDown(b, top)[i].rank > GroupsDown(b, top)[j].rank
    decreases top + 1
  {
    if top >= 0 {
      GroupsDescend(b, top - 1);
      RanksBelow(b, top - 1);
      var rest := GroupsDown(b, top - 1);
      assert GroupsDown(b, top) == if b[top] > 0 then [Group(top, b[top])] + rest else rest;
    }
  }

  lemma {:induction false} SortLength(s: seq<Group>)
    ensures |SortGroups(s)| == |s|
  {
    if s != [] {
      SortLength(s[1..]);
      InsertLength(s[0], SortGroups(s[1..]));
    }
  }

  lemma {:induction false} InsertLength(g: Group, s: seq<Group>)
    ensures |InsertGroup(g, s)| == |s| + 1
  {
    if s != [] {
      InsertLength(g, s[1..]);
    }
  }

  /** The distinct ranks of five cards, descending. */
  ghost predicate GoodUnique(b: multiset<int>, u: seq<nat>) {
    && (forall r: nat :: r in u <==> r in b)
    && (forall r :: r in b ==> 0 <= r <= 12)
    && forall i, j :: 0 <= i < j < |u| ==> u[i] > u[j]
  }

  lemma UniqueMember(b: multiset<int>, r: nat)
    requires forall x :: x in b ==> 0 <= x <= 12
    ensures r in UniqueDesc(b) <==> r in b
  {
    hide GroupsDown;
    var s := GroupsDown(b, 12);
    var u := UniqueDesc(b);
    GroupsDownIs(b, 12);
    if r in u {
      var i :| 0 <= i < |u| && u[i] == r;
      assert s[i] in s;
    }
    if r in b {
      assert Group(r, b[r]) in s;
      var i :| 0 <= i < |s| && s[i] == Group(r, b[r]);
      assert u[i] == r;
    }
  }

  lemma RanksInRange(h: seq<Card>)
    ensures forall r :: r in Bag(h) ==> 0 <= r <= 12
  {
  }

  lemma UniqueIs(h: seq<Card>)
    requires |h| == 5
    ensures GoodUnique(Bag(h), UniqueDesc(Bag(h))) && |UniqueDesc(Bag(h))| == |Groups(Bag(h))|
  {
    hide Bag, GroupsDown;
    var b := Bag(h);
    RanksInRange(h);
    GroupsDescend(b, 12);
    SortLength(GroupsDown(b, 12));
    forall r: nat
      ensures r in UniqueDesc(b) <==> r in b
    {
      UniqueMember(b, r);
    }
  }

  predicate RunAt(u: seq<nat>, i: nat)
    requires i + 5 <= |u|
  {
    var hi: int := u[i];
    u[i + 1] == hi - 1 && u[i + 2] == hi - 2 && u[i + 3] == hi - 3 && u[i + 4] == hi - 4
  }

  function FirstRun(u: seq<nat>, i: nat): Option<nat>
    decreases |u| - i
  {
    if i + 5 > |u| then None else if RunAt(u, i) then Some(u[i]) else FirstRun(u, i + 1)
  }

  function StraightHighOf(u: seq<nat>): Option<nat> {
    if |u| < 5 then None
    else match FirstRun(u, 0)
      case Some(hi) => Some(hi)
      case None => if 12 in u && 0 in u && 1 in u && 2 in u && 3 in u then Some(3) else None
  }

  /** The highest five consecutive ranks in a descending list, the wheel counting as five-high. */
  method StraightHigh(u: seq<nat>) returns (hi: Option<nat>)
    ensures hi == StraightHighOf(u)
  {
    if |u| < 5 {
      return None;
    }
    for i := 0 to |u| - 4
      invariant FirstRun(u, 0) == FirstRun(u, i)
    {
      var hi: int := u[i];
      if u[i + 1] == hi - 1 && u[i + 2] == hi - 2 && u[i + 3] == hi - 3 && u[i + 4] == hi - 4 {
        return Some(hi);
      }
    }
    if 12 in u && 0 in u && 1 in u && 2 in u && 3 in u {
      return Some(3);
    }
    return None;
  }

  lemma AtIndex(u: seq<nat>, r: nat) returns (i: nat)
    requires r in u
    ensures i < |u| && u[i] == r
  {
    i :| 0 <= i < |u| && u[i] == r;
  }

  /** A straight has five distinct ranks. */
  lemma StraightIsWide(b: multiset<int>, u: seq<nat>, top: int)
    requires GoodUnique(b, u) && StraightTop(b, top)
    ensures |u| >= 5
  {
    var a: nat, c: nat, d: nat, e: nat, f: nat := 12, 0, 1, 2, 3;
    if top != 3 {
      a, c, d, e, f := top, top - 1, top - 2, top - 3, top - 4;
    }
    assert a in b && c in b && d in b && e in b && f in b;
    var i := AtIndex(u, a);
    var j := AtIndex(u, c);
    var k := AtIndex(u, d);
    var l := AtIndex(u, e);
    var m := AtIndex(u, f);
  }

  /** In five distinct descending ranks that form a straight above the wheel, each is one less than the last. */
  lemma StraightRuns(b: multiset<int>, u: seq<nat>, top: int)
    requires GoodUnique(b, u) && |u| == 5 && StraightTop(b, top) && top != 3
    ensures RunAt(u, 0) && u[0] == top
  {
    assert u[0] in u && u[4] in u;
    assert u[0] in b && u[4] in b;
    assert u[0] <= top && u[4] >= top - 4;
    assert u[0] > u[1] > u[2] > u[3] > u[4];
  }

  lemma RunIsStraight(b: multiset<int>, u: seq<nat>)
    requires GoodUnique(b, u) && |u| == 5 && RunAt(u, 0)
    ensures StraightTop(b, u[0])
  {
    assert u[4] >= 0 && u[0] in u;
    forall r
      ensures r in b <==> u[0] - 4 <= r <= u[0]
    {
      if r in b {
        var n: nat := r;
        var i := AtIndex(u, n);
      }
      if u[0] - 4 <= r <= u[0] {
        assert u[u[0] - r] in u;
      }
    }
  }

  /** The program's straight test decides whether five cards are a straight, and finds its top. */
  lemma StraightFound(b: multiset<int>, u: seq<nat>)
    requires GoodUnique(b, u) && |u| <= 5
    ensures match StraightHighOf(u) case None => !IsStraight(b) case Some(top) => StraightTop(b, top)
  {
    assert |u| == 5 ==> FirstRun(u, 1) == None;
    if |u| == 5 && RunAt(u, 0) {
      RunIsStraight(b, u);
    } else if |u| == 5 && 12 in u && 0 in u && 1 in u && 2 in u && 3 in u {
    } else if top :| StraightTop(b, top) {
      StraightIsWide(b, u, top);
      if top != 3 {
        StraightRuns(b, u, top);
      }
    }
  }

  // ---------------------------------------------------------------- five cards

  predicate SameSuit(h: seq<Card>) {
    forall i :: 0 <= i < |h| ==> h[i].suit == h[0].suit
  }

  datatype Key = Key(category: nat, kickers: seq<nat>)

  /** The category and kickers of five cards, in the order the program tests them. */
  function KeyOf(b: multiset<int>, flush: bool): Key {
    var s := Groups(b);
    var u := UniqueDesc(b);
    var ranks := GroupRanks(s);
    var straight := StraightHighOf(u);
    if flush && straight.Some? then Key(8, [straight.value])
    else if N(s, 0) == 4 then Key(7, ranks)
    else if N(s, 0) == 3 && N(s, 1) == 2 then Key(6, ranks)
    else if flush then Key(5, u)
    else if straight.Some? then Key(4, [straight.value])
    else if N(s, 0) == 3 then Key(3, ranks)
    else if N(s, 0) == 2 && N(s, 1) == 2 then Key(2, ranks)
    else if N(s, 0) == 2 then Key(1, ranks)
    else Key(0, u)
  }

  function FiveKey(h: seq<Card>): Key {
    KeyOf(Bag(h), SameSuit(h))
  }

  lemma RankingsFit(h: seq<Card>)
    requires |h| == 5
    ensures var b := Bag(h);
      && |GroupRanks(Groups(b))| <= 5 && Nibbles(GroupRanks(Groups(b)))
      && |UniqueDesc(b)| <= 5 && Nibbles(UniqueDesc(b))
  {
    hide Bag, Groups, UniqueDesc, N;
    var b := Bag(h);
    var s := Groups(b);
    GroupsAre(h);
    Shapes(b, s);
    UniqueIs(h);
    forall i | 0 <= i < |s| ensures s[i].rank < 16 {
      assert s[i] in s;
    }
    UniqueFits(b, UniqueDesc(b));
  }

  lemma UniqueFits(b: multiset<int>, u: seq<nat>)
    requires GoodUnique(b, u)
    ensures Nibbles(u)
  {
    forall i | 0 <= i < |u| ensures u[i] < 16 {
      assert u[i] in u;
    }
  }

  lemma StraightFits(u: seq<nat>)
    requires Nibbles(u)
    ensures StraightHighOf(u).Some? ==> StraightHighOf(u).value < 16
  {
    FirstRunFits(u, 0);
  }

  lemma {:induction false} FirstRunFits(u: seq<nat>, i: nat)
    requires Nibbles(u)
    ensures FirstRun(u, i).Some? ==> FirstRun(u, i).value < 16
    decreases |u| - i
  {
    if i + 5 <= |u| {
      FirstRunFits(u, i + 1);
    }
  }

  lemma KeyFits(h: seq<Card>)
    requires |h| == 5
    ensures FiveKey(h).category < 16 && |FiveKey(h).kickers| <= 5 && Nibbles(FiveKey(h).kickers)
  {
    hide Groups, GroupRanks, UniqueDesc, StraightHighOf, Bag;
    RankingsFit(h);
    StraightFits(UniqueDesc(Bag(h)));
  }

  /** The value of five cards. */
  function FiveValue(h: seq<Card>): nat
    requires |h| == 5
  {
    KeyFits(h);
    Packed(FiveKey(h).category, FiveKey(h).kickers)
  }

  /** How many kickers each category has. */
  function KickerCount(category: nat): nat {
    match category
    case 8 => 1
    case 7 => 2
    case 6 => 2
    case 5 => 5
    case 4 => 1
    case 3 => 3
    case 2 => 3
    case 1 => 4
    case _ => 5
  }

  // ---------------------------------------------------------------- correctness for hands

  lemma {:induction false} TwoOfRank(h: seq<Card>, r: int)
    requires Bag(h)[r] >= 2
    ensures exists i, j :: 0 <= i < j < |h| && h[i].rank == r && h[j].rank == r
  {
    if h[0].rank == r && Bag(h[1..])[r] == 1 {
      BagMember(h[1..], r);
      var j :| 0 <= j < |h[1..]| && h[1..][j].rank == r;
      assert h[j + 1].rank == r;
    } else {
      TwoOfRank(h[1..], r);
      var i, j :| 0 <= i < j < |h[1..]| && h[1..][i].rank == r && h[1..][j].rank == r;
      assert h[i + 1].rank == r && h[j + 1].rank == r;
    }
  }

  /** Different cards of one suit have different ranks. */
  lemma FlushIsUnpaired(h: seq<Card>)
    requires IsHand(h) && SameSuit(h)
    ensures N(Groups(Bag(h)), 0) == 1
  {
    var b := Bag(h);
    var s := Groups(b);
    GroupsAre(h);
    Shapes(b, s);
    if N(s, 0) >= 2 {
      assert s[0] in s;
      TwoOfRank(h, s[0].rank);
    }
  }

  /** There are only four cards of a rank: five of one rank repeat a card. */
  lemma FiveRepeat(h: seq<Card>)
    requires |h| == 5 && forall i :: 0 <= i < 5 ==> h[i].rank == h[0].rank
    ensures !Distinct(h)
  {
    var i, j := TwoAlike(h[0].suit, h[1].suit, h[2].suit, h[3].suit, h[4].suit);
    var suits := [h[0].suit, h[1].suit, h[2].suit, h[3].suit, h[4].suit];
    assert suits[i] == h[i].suit && suits[j] == h[j].suit;
  }

  lemma TwoAlike(a: Suit, b: Suit, c: Suit, d: Suit, e: Suit) returns (i: nat, j: nat)
    ensures i < j < 5 && [a, b, c, d, e][i] == [a, b, c, d, e][j]
  {
    if a == b { return 0, 1; }
    if a == c { return 0, 2; }
    if a == d { return 0, 3; }
    if a == e { return 0, 4; }
    if b == c { return 1, 2; }
    if b == d { return 1, 3; }
    if b == e { return 1, 4; }
    if c == d { return 2, 3; }
    if c == e { return 2, 4; }
    return 3, 4;
  }

  lemma NoFiveOfAKind(h: seq<Card>)
    requires IsHand(h)
    ensures N(Groups(Bag(h)), 0) <= 4
  {
    var b := Bag(h);
    var s := Groups(b);
    GroupsAre(h);
    Shapes(b, s);
    if N(s, 0) == 5 {
      forall i | 0 <= i < 5
        ensures h[i].rank == s[0].rank
      {
        BagMember(h, h[i].rank);
        assert Group(h[i].rank, b[h[i].rank]) in s;
      }
      FiveRepeat(h);
    }
  }

  /** With no two ranks equal, the descending ranks are the ranking. */
  lemma UnpairedRanking(b: multiset<int>, s: seq<Group>, u: seq<nat>)
    requires GoodGroups(b, s) && N(s, 0) == 1 && GoodUnique(b, u)
    ensures IsRanking(b, u)
  {
    Shapes(b, s);
    forall i | 0 <= i < |u|
      ensures b[u[i]] == 1
    {
      assert u[i] in u;
      var g := Group(u[i], b[u[i]]);
      assert g in s;
      var k :| 0 <= k < |s| && s[k] == g;
      assert k > 0 ==> Before(s[0], s[k]);
    }
  }

  /** A group of a given size is found among the first two. */
  lemma SizeUpFront(b: multiset<int>, s: seq<Group>, n: nat)
    requires GoodGroups(b, s) && 2 <= n <= 4 && N(s, 0) <= 4
    ensures (exists i :: 0 <= i < |s| && N(s, i) == n) <==> N(s, 0) == n || (n == 2 && N(s, 1) == 2)
  {
    Shapes(b, s);
    if N(s, 0) == n {
      assert N(s, 0) == n && 0 < |s|;
    }
    if N(s, 1) == 2 {
      assert 1 < |s|;
    }
    assert N(s, 2) <= 1 && N(s, 3) <= 1 && N(s, 4) <= 1 by {
      SumOfFive(s);
      assert forall i :: 0 < i < |s| ==> Before(s[i - 1], s[i]);
    }
    if i :| 0 <= i < |s| && N(s, i) == n {
      assert i <= 1;
      assert i == 1 ==> Before(s[0], s[1]);
    }
  }

  /** Groups of sizes 4, 3 and 2 are the kinds the categories speak of. */
  lemma KindsAre(h: seq<Card>)
    requires IsHand(h)
    ensures var b := Bag(h); var s := Groups(b);
      && (OfAKind(b, 4) <==> N(s, 0) == 4)
      && (OfAKind(b, 3) <==> N(s, 0) == 3)
      && (OfAKind(b, 2) <==> N(s, 0) == 2 || N(s, 1) == 2)
      && (TwoPairs(b) <==> N(s, 0) == 2 && N(s, 1) == 2)
  {
    hide OfAKind, TwoPairs, Groups, Bag, GoodGroups, N;
    var b := Bag(h);
    var s := Groups(b);
    GroupsAre(h);
    RanksInRange(h);
    NoFiveOfAKind(h);
    KindIsGroup(b, s, 4);
    SizeUpFront(b, s, 4);
    KindIsGroup(b, s, 3);
    SizeUpFront(b, s, 3);
    KindIsGroup(b, s, 2);
    SizeUpFront(b, s, 2);
    PairsAreGroups(b, s);
  }

  /** The program's category is the declared one. */
  lemma KeyCategory(h: seq<Card>)
    requires IsHand(h)
    ensures FiveKey(h).category == Category(h)
  {
    hide Groups, UniqueDesc, StraightTop, OfAKind, TwoPairs, GoodUnique;
    UniqueIs(h);
    GroupsAre(h);
    Shapes(Bag(h), Groups(Bag(h)));
    StraightFound(Bag(h), UniqueDesc(Bag(h)));
    KindsAre(h);
    assert StraightHighOf(UniqueDesc(Bag(h))).Some? <==> IsStraight(Bag(h));
  }

  /** The program's kickers are the declared tie-break, and their number depends on the category only. */
  lemma KeyTieBreak(h: seq<Card>)
    requires IsHand(h)
    ensures IsTieBreak(h, FiveKey(h).kickers) && |FiveKey(h).kickers| == KickerCount(Category(h))
  {
    hide Groups, UniqueDesc, StraightTop, GoodUnique, IsRanking, Category, StraightHighOf;
    var b := Bag(h);
    var s := Groups(b);
    var u := UniqueDesc(b);
    KeyCategory(h);
    UniqueIs(h);
    GroupsAre(h);
    RanksInRange(h);
    Shapes(b, s);
    NoFiveOfAKind(h);
    StraightFound(b, u);
    GroupsRank(b, s);
    if SameSuit(h) {
      FlushIsUnpaired(h);
    }
    if N(s, 0) == 1 {
      UnpairedRanking(b, s, u);
    }
  }

  /**
   * The evaluator orders hands exactly as poker does: one value is below another just when the hand
   * loses, by category and then by tie-break.
   */
  lemma FiveValueOrder(h: seq<Card>, k: seq<Card>)
    requires IsHand(h) && IsHand(k)
    ensures FiveValue(h) < FiveValue(k) <==> Loses(h, k)
  {
    KeyCategory(h);
    KeyCategory(k);
    KeyTieBreak(h);
    KeyTieBreak(k);
    var v, w := FiveKey(h).kickers, FiveKey(k).kickers;
    KeyFits(h);
    KeyFits(k);
    PackedOrder(Category(h), v, Category(k), w);
    if Category(h) == Category(k) {
      LosesByTieBreak(h, k, v, w);
    }
  }

  lemma LosesByTieBreak(h: seq<Card>, k: seq<Card>, v: seq<nat>, w: seq<nat>)
    requires Category(h) == Category(k) && |v| == |w| && IsTieBreak(h, v) && IsTieBreak(k, w)
    ensures Loses(h, k) <==> LexLess(v, w)
  {
    if v', w' :| |v'| == |w'| && IsTieBreak(h, v') && IsTieBreak(k, w') && LexLess(v', w') {
      TieBreakUnique(h, v, v');
      TieBreakUnique(k, w, w');
    }
  }

  /** The value depends on the cards, not on their order. */
  lemma FiveValuePermutes(h: seq<Card>, k: seq<Card>)
    requires |h| == 5 && multiset(h) == multiset(k)
    ensures |k| == 5 && FiveValue(h) == FiveValue(k)
  {
    assert |multiset(h)| == |multiset(k)|;
    BagPermutes(h, k);
    SuitPermutes(h, k);
  }

  lemma SuitPermutes(h: seq<Card>, k: seq<Card>)
    requires multiset(h) == multiset(k) && h != [] && k != []
    ensures SameSuit(h) == SameSuit(k)
  {
    if SameSuit(h) {
      FlushTransfers(h, k);
    }
    if SameSuit(k) {
      FlushTransfers(k, h);
    }
  }

  lemma FlushTransfers(h: seq<Card>, k: seq<Card>)
    requires multiset(h) == multiset(k) && h != [] && k != [] && SameSuit(h)
    ensures SameSuit(k)
  {
    forall i | 0 <= i < |k|
      ensures k[i].suit == h[0].suit
    {
      assert k[i] in multiset(k);
      var j :| 0 <= j < |h| && h[j] == k[i];
    }
  }

  /** Renaming the suits, one to one, changes no value. */
  lemma SuitsAreEqual(h: seq<Card>, k: seq<Card>, rename: Suit -> Suit)
    requires |h| == |k| == 5 && forall i :: 0 <= i < 5 ==> k[i] == Card(h[i].rank, rename(h[i].suit))
    requires forall s: Suit, t: Suit :: rename(s) == rename(t) ==> s == t
    ensures FiveValue(h) == FiveValue(k)
  {
    SameRanksSameBag(h, k);
    assert SameSuit(h) == SameSuit(k);
  }

  lemma {:induction false} SameRanksSameBag(h: seq<Card>, k: seq<Card>)
    requires |h| == |k| && forall i :: 0 <= i < |h| ==> h[i].rank == k[i].rank
    ensures Bag(h) == Bag(k)
  {
    if h != [] {
      SameRanksSameBag(h[1..], k[1..]);
    }
  }

  // ---------------------------------------------------------------- the program's loops

  /** How many cards of each rank. */
  method CountRanks(cards: seq<Card>) returns (counts: array<nat>)
    ensures counts.Length == 13 && forall r :: 0 <= r < 13 ==> counts[r] == Bag(cards)[r]
  {
    counts := new nat[13](_ => 0);
    assert cards[0..] == cards;
    for i := 0 to |cards|
      invariant forall r :: 0 <= r < 13 ==> counts[r] + Bag(cards[i..])[r] == Bag(cards)[r]
    {
      assert cards[i..][1..] == cards[i + 1..];
      counts[cards[i].rank] := counts[cards[i].rank] + 1;
    }
  }

  lemma NoGroups(b: multiset<int>)
    ensures GroupsDown(b, -1) == []
  {
  }

  lemma GroupsStep(groups: seq<Group>, b: multiset<int>, rank: nat)
    ensures groups + GroupsDown(b, rank) == (if b[rank] > 0 then groups + [Group(rank, b[rank])] else groups) + GroupsDown(b, rank - 1)
  {
  }

  method ListGroups(counts: array<nat>, ghost b: multiset<int>) returns (groups: seq<Group>)
    requires counts.Length == 13 && forall r :: 0 <= r < 13 ==> counts[r] == b[r]
    ensures groups == GroupsDown(b, 12)
  {
    hide GroupsDown;
    groups := [];
    assert groups + GroupsDown(b, 12) == GroupsDown(b, 12);
    for rank := 13 downto 0
      invariant groups + GroupsDown(b, rank - 1) == GroupsDown(b, 12)
    {
      GroupsStep(groups, b, rank);
      if counts[rank] > 0 {
        groups := groups + [Group(rank, counts[rank])];
      }
    }
    NoGroups(b);
    assert groups + [] == groups;
  }

  function Singles(s: seq<Group>): seq<nat> {
    if s == [] then [] else (if s[0].n == 1 then [s[0].rank] else []) + Singles(s[1..])
  }

  /** When all groups but the first are single, the first rank and the singles are all the ranks. */
  lemma {:induction false} SinglesAre(s: seq<Group>)
    requires forall i :: 0 <= i < |s| ==> s[i].n == 1
    ensures Singles(s) == GroupRanks(s)
  {
    if s != [] {
      SinglesAre(s[1..]);
    }
  }

  /** The kickers the program collects are the group ranks in order. */
  lemma CollectedKickers(b: multiset<int>, s: seq<Group>)
    requires GoodGroups(b, s)
    ensures N(s, 0) == 4 || (N(s, 0) == 3 && N(s, 1) == 2) ==> |s| == 2 && GroupRanks(s) == [s[0].rank, s[1].rank]
    ensures (N(s, 0) == 3 || N(s, 0) == 2) && N(s, 1) == 1 ==> GroupRanks(s) == [s[0].rank] + Singles(s)
    ensures N(s, 0) == 2 && N(s, 1) == 2 ==> |s| == 3 && s[0].rank > s[1].rank && GroupRanks(s) == [s[0].rank, s[1].rank] + Singles(s)
  {
    Shapes(b, s);
    if (N(s, 0) == 3 || N(s, 0) == 2) && N(s, 1) == 1 {
      assert forall i :: 0 < i < |s| ==> N(s, i) == 1;
      SinglesAre(s[1..]);
      assert Singles(s) == Singles(s[1..]);
    }
    if N(s, 0) == 2 && N(s, 1) == 2 {
      assert Before(s[0], s[1]);
      TwoPairKickers(s);
    }
  }

  lemma TwoPairKickers(s: seq<Group>)
    requires |s| == 3 && s[0].n == s[1].n == 2 && s[2].n == 1
    ensures GroupRanks(s) == [s[0].rank, s[1].rank] + Singles(s)
  {
    assert s[1..][1..] == [s[2]];
    SinglesAre([s[2]]);
    assert Singles(s) == Singles(s[1..]) == Singles([s[2]]) == GroupRanks([s[2]]) == [s[2].rank];
  }

  /** `evaluateFive`: refuses anything but five cards, otherwise computes their value. */
  method EvaluateFive(cards: seq<Card>) returns (value: Option<nat>)
    ensures value == if |cards| == 5 then Some(FiveValue(cards)) else None
  {
    if |cards| != 5 {
      return None;
    }
    var flush := forall i :: 0 <= i < |cards| ==> cards[i].suit == cards[0].suit;
    var counts := CountRanks(cards);
    ghost var b := Bag(cards);
    var groups := ListGroups(counts, b);
    var uniq := GroupRanks(groups);
    groups := SortGroups(groups);
    var sHigh := StraightHigh(uniq);
    var key := ChooseKey(groups, uniq, flush, sHigh, b, cards);
    KeyFits(cards);
    var v := Pack(key.category, key.kickers);
    return Some(v);
  }

  /** The chain of tests from straight flush down to high card. */
  method ChooseKey(groups: seq<Group>, uniq: seq<nat>, flush: bool, sHigh: Option<nat>, ghost b: multiset<int>, ghost h: seq<Card>)
    returns (key: Key)
    requires |h| == 5 && b == Bag(h) && groups == Groups(b) && uniq == UniqueDesc(b) && sHigh == StraightHighOf(uniq)
    ensures key == KeyOf(b, flush)
  {
    hide Groups, UniqueDesc, StraightHighOf, Bag, GoodGroups;
    GroupsAre(h);
    Shapes(b, groups);
    CollectedKickers(b, groups);
    var n0, n1 := N(groups, 0), N(groups, 1);
    if flush && sHigh.Some? {
      return Key(8, [sHigh.value]);
    }
    if n0 == 4 {
      return Key(7, [groups[0].rank, groups[1].rank]);
    }
    if n0 == 3 && n1 == 2 {
      return Key(6, [groups[0].rank, groups[1].rank]);
    }
    if flush {
      return Key(5, uniq);
    }
    if sHigh.Some? {
      return Key(4, [sHigh.value]);
    }
    if n0 == 3 {
      return Key(3, [groups[0].rank] + Singles(groups));
    }
    if n0 == 2 && n1 == 2 {
      return Key(2, [groups[0].rank, groups[1].rank] + Singles(groups));
    }
    if n0 == 2 {
      return Key(1, [groups[0].rank] + Singles(groups));
    }
    return Key(0, uniq);
  }
}
