/** The program's own way of asking about seats, by filtered lists, and why it agrees with the sets of the rules. */
module SeatLists {
  import opened Common
  import opened Pots
  import opened Seats
  import opened Betting
  import opened HandRules

  function LiveList(seats: seq<Slot>): seq<Seat> {
    if seats == [] then [] else (if Live(seats[0]) then [seats[0].value] else []) + LiveList(seats[1..])
  }

  function NotAllIn(s: seq<Seat>): seq<Seat> {
    if s == [] then [] else (if s[0].allIn then [] else [s[0]]) + NotAllIn(s[1..])
  }

  function Shift(s: set<nat>): set<nat> {
    set i | i in s :: i + 1
  }

  lemma {:induction false} ShiftSize(s: set<nat>)
    ensures |Shift(s)| == |s|
  {
    if s != {} {
      var x :| x in s;
      var rest := s - {x};
      ShiftSize(rest);
      assert x + 1 in Shift(s);
      forall y | y in Shift(s) && y != x + 1
        ensures y in Shift(rest)
      {
        var i :| i in s && y == i + 1;
        assert i in rest;
      }
      assert Shift(s) == Shift(rest) + {x + 1};
    }
  }

  function Those(seats: seq<Slot>, who: Slot -> bool): set<nat> {
    set i: nat | i < |seats| && who(seats[i])
  }

  lemma ShiftIs(s: set<nat>, i: nat)
    ensures i in Shift(s) <==> i > 0 && i - 1 in s
  {
  }

  lemma ThoseShift(seats: seq<Slot>, who: Slot -> bool)
    requires seats != []
    ensures Those(seats, who) == (if who(seats[0]) then {0} else {}) + Shift(Those(seats[1..], who))
  {
    hide Shift;
    var rest := seats[1..];
    forall i: nat
      ensures i in Those(seats, who) <==> i in (if who(seats[0]) then {0} else {}) + Shift(Those(rest, who))
    {
      ShiftIs(Those(rest, who), i);
      assert 0 < i < |seats| ==> rest[i - 1] == seats[i];
    }
  }

  lemma ThoseStep(seats: seq<Slot>, who: Slot -> bool)
    requires seats != []
    ensures |Those(seats, who)| == (if who(seats[0]) then 1 else 0) + |Those(seats[1..], who)|
  {
    var shifted := Shift(Those(seats[1..], who));
    ThoseShift(seats, who);
    ShiftSize(Those(seats[1..], who));
    ShiftIs(Those(seats[1..], who), 0);
    if who(seats[0]) {
      assert {0} !! shifted;
    } else {
      assert {} + shifted == shifted;
    }
  }

  lemma {:induction false} LiveListSize(seats: seq<Slot>)
    ensures |LiveList(seats)| == |LiveSet(seats)|
    ensures |NotAllIn(LiveList(seats))| == |ActorSet(seats)|
  {
    assert LiveSet(seats) == Those(seats, Live) && ActorSet(seats) == Those(seats, CanAct);
    if seats != [] {
      var rest := seats[1..];
      assert LiveSet(rest) == Those(rest, Live) && ActorSet(rest) == Those(rest, CanAct);
      LiveListSize(rest);
      ThoseStep(seats, Live);
      ThoseStep(seats, CanAct);
      if Live(seats[0]) {
        assert LiveList(seats)[1..] == LiveList(rest);
      } else {
        assert LiveList(seats) == LiveList(rest);
      }
    }
  }

  lemma {:induction false} LiveListMembers(seats: seq<Slot>, p: Seat)
    ensures p in LiveList(seats) <==> exists i: nat :: i < |seats| && seats[i] == Some(p) && !p.folded
  {
    if seats != [] {
      LiveListMembers(seats[1..], p);
      assert forall i: nat :: 0 < i < |seats| ==> seats[i] == seats[1..][i - 1];
      if i: nat :| i < |seats[1..]| && seats[1..][i] == Some(p) && !p.folded {
        assert seats[i + 1] == Some(p);
      }
    }
  }

  lemma {:induction false} NotAllInMembers(s: seq<Seat>, p: Seat)
    ensures p in NotAllIn(s) <==> p in s && !p.allIn
  {
    if s != [] {
      NotAllInMembers(s[1..], p);
    }
  }

  lemma ActorMembers(seats: seq<Slot>, p: Seat)
    ensures p in NotAllIn(LiveList(seats)) <==> exists i: nat :: i < |seats| && seats[i] == Some(p) && CanAct(seats[i])
  {
    NotAllInMembers(LiveList(seats), p);
    LiveListMembers(seats, p);
  }

  lemma {:induction false} FirstLiveInList(seats: seq<Slot>)
    requires LiveList(seats) != []
    ensures LiveList(seats)[0].playerId == FirstLiveId(seats)
  {
    if !Live(seats[0]) {
      FirstLiveInList(seats[1..]);
      assert LiveList(seats) == LiveList(seats[1..]);
    }
  }

  lemma {:induction false} SomeAllIn(s: seq<Seat>)
    requires |NotAllIn(s)| < |s|
    ensures exists p :: p in s && p.allIn
  {
    if s[0].allIn {
      assert s[0] in s;
    } else {
      SomeAllIn(s[1..]);
      var p :| p in s[1..] && p.allIn;
      assert p in s;
    }
  }

  /** The program's test for the end of a betting round, clause by clause. */
  predicate ClosedByLists(seats: seq<Slot>, bet: nat) {
    var live := LiveList(seats);
    var canAct := NotAllIn(live);
    if |live| <= 1 || |canAct| == 0 then true
    else if |canAct| == 1 && canAct[0].streetCommit >= bet
         && (forall p :: p in live ==> p.allIn || p.streetCommit == canAct[0].streetCommit || p.streetCommit == bet)
         && canAct[0].acted then true
    else if |canAct| == 1 && canAct[0].streetCommit >= bet && exists p :: p in live && p.allIn then
      canAct[0].acted || canAct[0].streetCommit >= bet
    else forall p :: p in canAct ==> p.acted && (p.streetCommit == bet || p.allIn)
  }

  lemma AllMatched(seats: seq<Slot>, bet: nat)
    ensures (forall p :: p in NotAllIn(LiveList(seats)) ==> p.acted && (p.streetCommit == bet || p.allIn))
       <==> (forall i: nat :: i < |seats| && CanAct(seats[i]) ==> !Owes(seats[i], bet))
  {
    var canAct := NotAllIn(LiveList(seats));
    forall p ensures p in canAct <==> exists i: nat :: i < |seats| && seats[i] == Some(p) && CanAct(seats[i]) {
      ActorMembers(seats, p);
    }
    if forall p :: p in canAct ==> p.acted && (p.streetCommit == bet || p.allIn) {
      forall i: nat | i < |seats| && CanAct(seats[i])
        ensures !Owes(seats[i], bet)
      {
        assert seats[i] == Some(seats[i].value);
        assert seats[i].value in canAct;
      }
    }
  }

  lemma LoneActor(seats: seq<Slot>, bet: nat)
    requires |NotAllIn(LiveList(seats))| == 1
    ensures NotAllIn(LiveList(seats))[0].streetCommit >= bet
       <==> forall i: nat :: i < |seats| && CanAct(seats[i]) ==> seats[i].value.streetCommit >= bet
  {
    var canAct := NotAllIn(LiveList(seats));
    ActorMembers(seats, canAct[0]);
    forall i: nat | i < |seats| && CanAct(seats[i])
      ensures seats[i].value == canAct[0]
    {
      ActorMembers(seats, seats[i].value);
      assert seats[i] == Some(seats[i].value);
    }
    assert canAct[0] in canAct;
  }

  /** The clauses amount to the rules' definition: a lone actor with nothing to call never has to act. */
  lemma ClosedAgrees(seats: seq<Slot>, bet: nat)
    ensures ClosedByLists(seats, bet) <==> Closed(seats, bet)
  {
    var live := LiveList(seats);
    LiveListSize(seats);
    AllMatched(seats, bet);
    if |NotAllIn(live)| == 1 {
      LoneActor(seats, bet);
      if |live| > 1 {
        SomeAllIn(live);
      }
    }
  }
}
