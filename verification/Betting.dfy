/**
 * One betting round: the legal actions, what an action does, when betting closes, and the
 * invariants that every action keeps.
 *
 * `Acts` abstracts any accepted action; the invariants are shown to survive `Acts` once and for
 * all, and `ApplyActs` shows that each of the six concrete actions is such a step.
 */
module Betting {
  import opened Common
  import opened Seats

  datatype ActionKind = Fold | Check | Call | Bet | Raise | AllIn

  /** An absent amount is 0, as the program reads it. */
  datatype PlayerAction = PlayerAction(kind: ActionKind, amount: int)

  datatype LegalAction = LegalAction(kind: ActionKind, min: nat, max: nat)

  datatype TableError =
    | HandInProgress | AlreadySeated | BadBuyIn | NoEmptySeat | NotSeated | AddOnTooLarge | AddOnNotPositive
    | TooFewPlayers | NotBettingStreet | NoActionToTake | NotYourTurn | OutOfAction | IllegalAction | BadAmount
    | InvalidPut | BadSeatCount | NoSuchTable

  // ---------------------------------------------------------------- actions

  function ToCall(p: Seat, bet: nat): int {
    bet - p.streetCommit
  }

  function LegalFor(cfg: Config, p: Seat, bet: nat, lastRaise: nat): seq<LegalAction> {
    var fold := [LegalAction(Fold, 0, 0)];
    if ToCall(p, bet) <= 0 then
      fold + [LegalAction(Check, 0, 0)] +
      if p.stack > 0 then [LegalAction(Bet, Min(p.stack, cfg.bigBlind), p.stack), LegalAction(AllIn, p.stack, p.stack)]
      else []
    else
      var call := if p.stack > ToCall(p, bet) then [LegalAction(Call, ToCall(p, bet), ToCall(p, bet))] else [];
      var allIn := if p.stack > 0 then [LegalAction(AllIn, p.stack, p.stack)] else [];
      var raise :=
        if p.stack + p.streetCommit > bet && p.stack > ToCall(p, bet) && p.stack + p.streetCommit >= bet + lastRaise
        then [LegalAction(Raise, bet + lastRaise, p.stack + p.streetCommit)] else [];
      fold + call + allIn + raise
  }

  function Lookup(legal: seq<LegalAction>, kind: ActionKind): Option<LegalAction> {
    if legal == [] then None
    else if legal[0].kind == kind then Some(legal[0])
    else Lookup(legal[1..], kind)
  }

  function Put(p: Seat, amount: nat): Seat
    requires amount <= p.stack
  {
    p.(stack := p.stack - amount, streetCommit := p.streetCommit + amount, handCommit := p.handCommit + amount,
       allIn := p.allIn || p.stack == amount)
  }

  /** Which actions are on offer, and within which bounds. */
  function Offer(cfg: Config, p: Seat, bet: nat, lastRaise: nat, kind: ActionKind): Option<LegalAction> {
    var open := p.streetCommit >= bet;
    var own := p.stack + p.streetCommit;
    match kind
    case Fold => Some(LegalAction(Fold, 0, 0))
    case Check => if open then Some(LegalAction(Check, 0, 0)) else None
    case Call => if !open && own > bet then Some(LegalAction(Call, bet - p.streetCommit, bet - p.streetCommit)) else None
    case Bet => if open && p.stack > 0 then Some(LegalAction(Bet, Min(p.stack, cfg.bigBlind), p.stack)) else None
    case Raise => if !open && own > bet && own >= bet + lastRaise then Some(LegalAction(Raise, bet + lastRaise, own)) else None
    case AllIn => if p.stack > 0 then Some(LegalAction(AllIn, p.stack, p.stack)) else None
  }

  /** The list of legal actions holds exactly the offers, each once. */
  lemma LegalIsOffered(cfg: Config, p: Seat, bet: nat, lastRaise: nat, kind: ActionKind)
    ensures Lookup(LegalFor(cfg, p, bet, lastRaise), kind) == Offer(cfg, p, bet, lastRaise, kind)
  {
    LookupUnrolled(LegalFor(cfg, p, bet, lastRaise), kind);
  }

  function At(legal: seq<LegalAction>, k: nat, kind: ActionKind, otherwise: Option<LegalAction>): Option<LegalAction> {
    if k < |legal| && legal[k].kind == kind then Some(legal[k]) else otherwise
  }

  /** Lookup in a list of at most four offers, written out. */
  function Lookup4(legal: seq<LegalAction>, kind: ActionKind): Option<LegalAction> {
    At(legal, 0, kind, At(legal, 1, kind, At(legal, 2, kind, At(legal, 3, kind, None))))
  }

  lemma LookupUnrolled(legal: seq<LegalAction>, kind: ActionKind)
    requires |legal| <= 4
    ensures Lookup(legal, kind) == Lookup4(legal, kind)
  {
    if legal != [] {
      LookupUnrolled(legal[1..], kind);
      assert |legal| > 1 ==> legal[1..][0] == legal[1];
      assert |legal| > 2 ==> legal[1..][1] == legal[2];
      assert |legal| > 3 ==> legal[1..][2] == legal[3];
    }
  }

  /** The actor's seat, the bet to match, the last full raise, and whether the others are reopened. */
  datatype Outcome = Played(seat: Seat, bet: nat, lastRaise: nat, reopen: bool) | Refused(error: TableError)

  function Apply(cfg: Config, p: Seat, bet: nat, lastRaise: nat, action: PlayerAction): Outcome {
    var legal := Offer(cfg, p, bet, lastRaise, action.kind);
    if legal.None? then Refused(IllegalAction)
    else
      var spec := legal.value;
      match action.kind
      case Fold => Played(p.(folded := true), bet, lastRaise, false)
      case Check => Played(p, bet, lastRaise, false)
      case Call => Played(Put(p, Min(ToCall(p, bet), p.stack)), bet, lastRaise, false)
      case Bet =>
        if action.amount < spec.min || action.amount > spec.max then Refused(BadAmount)
        else
          var after := Put(p, action.amount);
          Played(after, after.streetCommit, Max(action.amount - bet, cfg.bigBlind), true)
      case Raise =>
        if action.amount < spec.min || action.amount > spec.max then Refused(BadAmount)
        else
          var after := Put(p, action.amount - p.streetCommit);
          var full := action.amount - bet >= lastRaise;
          Played(after, after.streetCommit, if full then action.amount - bet else lastRaise, full)
      case AllIn =>
        var after := Put(p, p.stack);
        if after.streetCommit <= bet then Played(after, bet, lastRaise, false)
        else
          var full := after.streetCommit - bet >= lastRaise && after.streetCommit > bet;
          Played(after, after.streetCommit, if full then after.streetCommit - bet else lastRaise, full)
  }

  /** Everyone else still able to act must act again. */
  function Reopened(s: Slot, except: PlayerId): Slot {
    if CanAct(s) && s.value.playerId != except then Some(s.value.(acted := false)) else s
  }

  function Reopen(seats: seq<Slot>, except: PlayerId): seq<Slot> {
    seq(|seats|, i requires 0 <= i < |seats| => Reopened(seats[i], except))
  }

  function After(seats: seq<Slot>, i: nat, played: Outcome): seq<Slot>
    requires i < |seats| && played.Played?
  {
    (if played.reopen then Reopen(seats, played.seat.playerId) else seats)[i := Some(played.seat.(acted := true))]
  }

  // ---------------------------------------------------------------- the abstract step

  ghost predicate ActorStep(p: Seat, q: Seat, bet: nat, bet': nat) {
    && q.playerId == p.playerId && q.hole == p.hole && q.sittingOut == p.sittingOut && q.acted
    && p.streetCommit <= q.streetCommit && q.handCommit - p.handCommit == q.streetCommit - p.streetCommit
    && q.stack + q.handCommit == p.stack + p.handCommit
    && q.streetCommit <= bet' && bet <= bet'
    && (bet < bet' ==> q.streetCommit == bet' && !q.folded)
    && (q.folded ==> q.stack == p.stack && q.allIn == p.allIn)
    && (!q.folded ==> (q.allIn <==> q.stack == 0))
    && (!q.folded && !q.allIn ==> q.streetCommit == bet')
  }

  ghost predicate OtherStep(s: Slot, s': Slot, bet: nat, bet': nat) {
    s' == s || (bet < bet' && CanAct(s) && s' == Some(s.value.(acted := false)))
  }

  ghost predicate Acts(seats: seq<Slot>, i: nat, bet: nat, seats': seq<Slot>, bet': nat) {
    && |seats'| == |seats| && i < |seats|
    && seats[i].Some? && seats'[i].Some? && ActorStep(seats[i].value, seats'[i].value, bet, bet')
    && forall k: nat :: k < |seats| && k != i ==> OtherStep(seats[k], seats'[k], bet, bet')
  }

  // ---------------------------------------------------------------- invariants

  /** Seat by seat: all-in means out of chips, nobody has put in more than the bet, nobody live sits out. */
  ghost predicate SaneSeat(s: Slot, bet: nat) {
    s.Some? ==>
      var p := s.value;
      && p.streetCommit <= p.handCommit
      && (p.folded ==> !p.allIn)
      && (!p.folded ==> (p.allIn <==> p.stack == 0) && p.streetCommit <= bet && !p.sittingOut)
  }

  ghost predicate Sane(seats: seq<Slot>, bet: nat) {
    forall i: nat :: i < |seats| ==> SaneSeat(seats[i], bet)
  }

  /** The seats still owing action come first, going round from the actor. */
  ghost predicate Prefix(seats: seq<Slot>, bet: nat, t: nat)
    requires t < |seats|
  {
    forall i: nat, j: nat ::
      i < |seats| && j < |seats| && CanAct(seats[i]) && Owes(seats[j], bet) && Dist(|seats|, t, i) <= Dist(|seats|, t, j)
      ==> Owes(seats[i], bet)
  }

  /** A seat that has posted the bet without acting: a blind with its option. */
  predicate HasOption(s: Slot, bet: nat) {
    CanAct(s) && !s.value.acted && s.value.streetCommit == bet && bet > 0
  }

  ghost predicate OptionAfter(seats: seq<Slot>, bet: nat, t: nat, j: nat)
    requires t < |seats| && j < |seats|
  {
    exists k: nat :: k < |seats| && HasOption(seats[k], bet) && Dist(|seats|, t, j) <= Dist(|seats|, t, k)
  }

  /** While a blind has its option, the last seat owing action has one. */
  ghost predicate OptionLast(seats: seq<Slot>, bet: nat, t: nat)
    requires t < |seats|
  {
    forall i: nat, j: nat ::
      i < |seats| && j < |seats| && HasOption(seats[i], bet) && Owes(seats[j], bet) ==> OptionAfter(seats, bet, t, j)
  }

  ghost predicate InTurn(seats: seq<Slot>, bet: nat, t: nat) {
    t < |seats| && Owes(seats[t], bet) && Prefix(seats, bet, t) && OptionLast(seats, bet, t)
  }

  /** Everyone who can act entered the street with `base` in the pot; nobody has more than base + bet. */
  ghost predicate LevelSeat(s: Slot, bet: nat, base: nat) {
    s.Some? ==> s.value.handCommit <= base + bet && (CanAct(s) ==> s.value.handCommit == base + s.value.streetCommit)
  }

  ghost predicate Level(seats: seq<Slot>, bet: nat, base: nat) {
    forall i: nat :: i < |seats| ==> LevelSeat(seats[i], bet, base)
  }

  /** A live seat that has put in the full base + bet and owes nothing. */
  ghost predicate Anchor(s: Slot, bet: nat, base: nat) {
    Live(s) && !Owes(s, bet) && s.value.handCommit == base + bet
  }

  ghost predicate Anchored(seats: seq<Slot>, bet: nat, base: nat) {
    exists i: nat :: i < |seats| && Anchor(seats[i], bet, base)
  }

  /** Chips in the pot, short of the bet, and not because of being all-in. */
  predicate Partial(s: Slot, bet: nat) {
    s.Some? && !s.value.allIn && 0 < s.value.handCommit < bet
  }

  /** Only blinds are in: no folded seat has matched the bet and at most one seat is part of the way. */
  ghost predicate OnlyBlinds(seats: seq<Slot>, bet: nat) {
    && (forall i: nat :: i < |seats| && seats[i].Some? && seats[i].value.folded ==> seats[i].value.handCommit < bet)
    && (forall i: nat, j: nat :: i < |seats| && j < |seats| && Partial(seats[i], bet) && Partial(seats[j], bet) ==> i == j)
  }

  ghost predicate Optioned(seats: seq<Slot>, bet: nat) {
    exists i: nat :: i < |seats| && HasOption(seats[i], bet)
  }

  /** Why a folded seat cannot top the pot: no bet, a live seat at the bet, or nothing but blinds folded. */
  ghost predicate Covered(seats: seq<Slot>, bet: nat, base: nat) {
    bet == 0 || Anchored(seats, bet, base) || Optioned(seats, bet) || (base == 0 && OnlyBlinds(seats, bet))
  }

  /** The minimum raise never falls below the big blind, and is exactly it while someone may still open. */
  ghost predicate RaiseSize(cfg: Config, seats: seq<Slot>, bet: nat, lastRaise: nat) {
    && lastRaise >= cfg.bigBlind
    && forall i: nat :: i < |seats| && CanAct(seats[i]) && !seats[i].value.acted && seats[i].value.streetCommit == bet
         ==> lastRaise == cfg.bigBlind
  }

  // ---------------------------------------------------------------- when betting closes

  /** Betting is over: one player left, nobody able to act, a lone actor with nothing to call, or all matched. */
  predicate Closed(seats: seq<Slot>, bet: nat) {
    || |LiveSet(seats)| <= 1
    || |ActorSet(seats)| == 0
    || (|ActorSet(seats)| == 1 && forall i: nat :: i < |seats| && CanAct(seats[i]) ==> seats[i].value.streetCommit >= bet)
    || forall i: nat :: i < |seats| && CanAct(seats[i]) ==> !Owes(seats[i], bet)
  }

  lemma SingleActor(seats: seq<Slot>, i: nat)
    requires i < |seats| && CanAct(seats[i])
    requires forall j: nat :: j < |seats| && CanAct(seats[j]) ==> j == i
    ensures |ActorSet(seats)| == 1
  {
    assert ActorSet(seats) == {i};
  }

  /** While betting is open with nothing to call, a second player can act. */
  lemma AnotherActor(seats: seq<Slot>, bet: nat, i: nat) returns (j: nat)
    requires !Closed(seats, bet) && i < |seats| && CanAct(seats[i]) && seats[i].value.streetCommit >= bet
    ensures j < |seats| && j != i && CanAct(seats[j])
  {
    if !exists j: nat :: j < |seats| && j != i && CanAct(seats[j]) {
      SingleActor(seats, i);
    }
    j :| j < |seats| && j != i && CanAct(seats[j]);
  }

  // ---------------------------------------------------------------- preservation

  lemma SaneKept(seats: seq<Slot>, i: nat, bet: nat, seats': seq<Slot>, bet': nat)
    requires Acts(seats, i, bet, seats', bet') && Sane(seats, bet) && CanAct(seats[i])
    ensures Sane(seats', bet')
  {
    forall k: nat | k < |seats'|
      ensures SaneSeat(seats'[k], bet')
    {
      assert SaneSeat(seats[k], bet);
      assert k != i ==> OtherStep(seats[k], seats'[k], bet, bet');
    }
  }

  lemma LevelKept(seats: seq<Slot>, i: nat, bet: nat, seats': seq<Slot>, bet': nat, base: nat)
    requires Acts(seats, i, bet, seats', bet') && Level(seats, bet, base) && CanAct(seats[i])
    ensures Level(seats', bet', base)
  {
    forall k: nat | k < |seats'|
      ensures LevelSeat(seats'[k], bet', base)
    {
      assert LevelSeat(seats[k], bet, base);
      assert k != i ==> OtherStep(seats[k], seats'[k], bet, bet');
    }
  }

  lemma OthersOwe(seats: seq<Slot>, i: nat, bet: nat, seats': seq<Slot>, bet': nat, k: nat)
    requires Acts(seats, i, bet, seats', bet') && Sane(seats, bet) && k < |seats| && k != i
    ensures CanAct(seats'[k]) <==> CanAct(seats[k])
    ensures bet == bet' ==> seats'[k] == seats[k]
    ensures bet < bet' && CanAct(seats[k]) ==> Owes(seats'[k], bet') && seats'[k].value.streetCommit < bet'
  {
    assert OtherStep(seats[k], seats'[k], bet, bet');
    assert SaneSeat(seats[k], bet);
  }

  /** The action passes to a player who owes, and those owing still come first. */
  lemma TurnKept(seats: seq<Slot>, t: nat, bet: nat, seats': seq<Slot>, bet': nat, t': nat)
    requires Acts(seats, t, bet, seats', bet') && Sane(seats, bet) && InTurn(seats, bet, t)
    requires !Closed(seats', bet') && IsNext(seats', t, 1, CanAct, t')
    ensures InTurn(seats', bet', t') && t' != t
  {
    var n := |seats|;
    var j: nat :| j < n && CanAct(seats'[j]) && Owes(seats'[j], bet');
    assert j != t;
    assert Gap(n, t, t') <= Gap(n, t, j) < n;
    OthersOwe(seats, t, bet, seats', bet', t');
    OthersOwe(seats, t, bet, seats', bet', j);
    if bet == bet' {
      assert Dist(n, t, t') <= Dist(n, t, j);
      assert Owes(seats'[t'], bet');
    }
    PrefixKept(seats, t, bet, seats', bet', t');
    OptionKept(seats, t, bet, seats', bet', t');
  }

  lemma PrefixKept(seats: seq<Slot>, t: nat, bet: nat, seats': seq<Slot>, bet': nat, t': nat)
    requires Acts(seats, t, bet, seats', bet') && Sane(seats, bet) && t < |seats| && Prefix(seats, bet, t)
    requires IsNext(seats', t, 1, CanAct, t')
    ensures Prefix(seats', bet', t')
  {
    var n := |seats|;
    forall i: nat, j: nat | i < n && j < n && CanAct(seats'[i]) && Owes(seats'[j], bet') && Dist(n, t', i) <= Dist(n, t', j)
      ensures Owes(seats'[i], bet')
    {
      assert i != t;
      OthersOwe(seats, t, bet, seats', bet', i);
      OthersOwe(seats, t, bet, seats', bet', j);
    }
  }

  lemma OptionKept(seats: seq<Slot>, t: nat, bet: nat, seats': seq<Slot>, bet': nat, t': nat)
    requires Acts(seats, t, bet, seats', bet') && Sane(seats, bet) && t < |seats| && OptionLast(seats, bet, t)
    requires IsNext(seats', t, 1, CanAct, t')
    ensures OptionLast(seats', bet', t')
  {
    var n := |seats|;
    forall i: nat, j: nat | i < n && j < n && HasOption(seats'[i], bet') && Owes(seats'[j], bet')
      ensures OptionAfter(seats', bet', t', j)
    {
      assert i != t && j != t;
      OthersOwe(seats, t, bet, seats', bet', i);
      OthersOwe(seats, t, bet, seats', bet', j);
      assert OptionAfter(seats, bet, t, j);
      var k: nat :| k < n && HasOption(seats[k], bet) && Dist(n, t, j) <= Dist(n, t, k);
      assert k != t;
      OthersOwe(seats, t, bet, seats', bet', k);
    }
  }

  /** A blind giving up its option leaves another option behind, or someone who has matched the bet. */
  lemma OptionGivenUp(seats: seq<Slot>, t: nat, bet: nat, base: nat) returns (j: nat)
    requires InTurn(seats, bet, t) && Level(seats, bet, base) && !Closed(seats, bet) && HasOption(seats[t], bet)
    ensures j < |seats| && j != t && (Anchor(seats[j], bet, base) || HasOption(seats[j], bet))
  {
    j := AnotherActor(seats, bet, t);
    assert LevelSeat(seats[j], bet, base);
    if Owes(seats[j], bet) {
      assert OptionAfter(seats, bet, t, j);
      j :| j < |seats| && HasOption(seats[j], bet) && j != t;
    } else {
      assert Anchor(seats[j], bet, base);
    }
  }

  lemma CoveredKept(seats: seq<Slot>, t: nat, bet: nat, seats': seq<Slot>, bet': nat, base: nat)
    requires Acts(seats, t, bet, seats', bet') && Sane(seats, bet) && InTurn(seats, bet, t) && Level(seats, bet, base)
    requires !Closed(seats, bet) && Covered(seats, bet, base)
    ensures Covered(seats', bet', base)
  {
    var q := seats'[t].value;
    assert LevelSeat(seats[t], bet, base) && SaneSeat(seats[t], bet);
    if !q.folded && q.streetCommit == bet' {
      assert Anchor(seats'[t], bet', base);
    } else if bet > 0 {
      if w: nat :| w < |seats| && w != t && (Anchor(seats[w], bet, base) || HasOption(seats[w], bet)) {
        assert Anchor(seats'[w], bet, base) || HasOption(seats'[w], bet);
      } else {
        if HasOption(seats[t], bet) {
          var w := OptionGivenUp(seats, t, bet, base);
        }
        assert !Anchor(seats[t], bet, base);
        assert OnlyBlinds(seats, bet);
        assert Partial(seats'[t], bet) ==> Partial(seats[t], bet);
        assert OnlyBlinds(seats', bet');
      }
    }
  }

  /** Seat k stands above every live seat: the pot it tops would have no owner. */
  ghost predicate Stands(seats: seq<Slot>, k: nat) {
    && k < |seats| && seats[k].Some? && seats[k].value.folded && seats[k].value.handCommit > 0
    && forall i: nat :: i < |seats| && Live(seats[i]) ==> seats[i].value.handCommit < seats[k].value.handCommit
  }

  /** Whenever betting closes, at most one folded commitment stands above all live ones. */
  lemma CloseCovers(seats: seq<Slot>, bet: nat, base: nat)
    requires Closed(seats, bet) && |LiveSet(seats)| >= 2 && Sane(seats, bet)
    requires Level(seats, bet, base) && Covered(seats, bet, base)
    requires bet == 0 ==> ActorSet(seats) != {}
    ensures forall j, k :: Stands(seats, j) && Stands(seats, k) ==> j == k
  {
    if i: nat :| i < |seats| && CanAct(seats[i]) {
      assert i in ActorSet(seats);
      assert SaneSeat(seats[i], bet) && LevelSeat(seats[i], bet, base);
      assert seats[i].value.handCommit == base + bet;
      assert forall k: nat :: k < |seats| ==> LevelSeat(seats[k], bet, base);
    } else if w: nat :| w < |seats| && Anchor(seats[w], bet, base) {
      assert forall k: nat :: k < |seats| ==> LevelSeat(seats[k], bet, base);
    } else {
      assert bet > 0 && !Optioned(seats, bet);
      assert forall k: nat :: Stands(seats, k) ==> SaneSeat(seats[k], bet) && Partial(seats[k], bet);
    }
  }

  lemma RaiseSizeKept(cfg: Config, seats: seq<Slot>, i: nat, bet: nat, seats': seq<Slot>, bet': nat, lastRaise: nat, lastRaise': nat)
    requires Acts(seats, i, bet, seats', bet') && Sane(seats, bet) && RaiseSize(cfg, seats, bet, lastRaise)
    requires lastRaise <= lastRaise' && (bet == bet' ==> lastRaise == lastRaise')
    ensures RaiseSize(cfg, seats', bet', lastRaise')
  {
    forall k: nat | k < |seats'| && CanAct(seats'[k]) && !seats'[k].value.acted && seats'[k].value.streetCommit == bet'
      ensures lastRaise' == cfg.bigBlind
    {
      assert k != i;
      OthersOwe(seats, i, bet, seats', bet', k);
    }
  }

  // ---------------------------------------------------------------- the concrete actions

  ghost predicate DistinctPlayers(seats: seq<Slot>) {
    forall i: nat, j: nat :: i < j < |seats| && seats[i].Some? && seats[j].Some? ==> seats[i].value.playerId != seats[j].value.playerId
  }

  lemma PutStep(p: Seat, amount: nat, bet: nat, bet': nat)
    requires !p.folded && !p.allIn && 0 < amount <= p.stack && bet <= bet'
    requires p.streetCommit + amount == bet' || (bet' == bet && amount == p.stack && p.streetCommit + amount <= bet)
    ensures ActorStep(p, Put(p, amount).(acted := true), bet, bet')
  {
  }

  lemma ApplyQuiet(cfg: Config, p: Seat, bet: nat, lastRaise: nat, action: PlayerAction)
    requires !p.folded && !p.allIn && p.stack > 0 && p.streetCommit <= bet
    requires action.kind.Fold? || action.kind.Check? || action.kind.Call?
    requires Apply(cfg, p, bet, lastRaise, action).Played?
    ensures var o := Apply(cfg, p, bet, lastRaise, action); ActorStep(p, o.seat.(acted := true), bet, o.bet)
  {
    if action.kind.Call? {
      PutStep(p, bet - p.streetCommit, bet, bet);
    }
  }

  lemma ApplyOpening(cfg: Config, p: Seat, bet: nat, lastRaise: nat, action: PlayerAction)
    requires GoodConfig(cfg) && !p.folded && !p.allIn && p.stack > 0 && p.streetCommit <= bet
    requires action.kind.Bet? || action.kind.AllIn?
    requires Apply(cfg, p, bet, lastRaise, action).Played?
    ensures var o := Apply(cfg, p, bet, lastRaise, action); ActorStep(p, o.seat.(acted := true), bet, o.bet)
  {
    if action.kind.Bet? {
      PutStep(p, action.amount, bet, p.streetCommit + action.amount);
    } else {
      PutStep(p, p.stack, bet, Max(bet, p.streetCommit + p.stack));
    }
  }

  /** What each action does to the actor. */
  lemma ApplyActor(cfg: Config, p: Seat, bet: nat, lastRaise: nat, action: PlayerAction)
    requires GoodConfig(cfg) && !p.folded && !p.allIn && p.stack > 0 && p.streetCommit <= bet
    requires Apply(cfg, p, bet, lastRaise, action).Played?
    ensures var o := Apply(cfg, p, bet, lastRaise, action); ActorStep(p, o.seat.(acted := true), bet, o.bet)
  {
    match action.kind
    case Fold => ApplyQuiet(cfg, p, bet, lastRaise, action);
    case Check => ApplyQuiet(cfg, p, bet, lastRaise, action);
    case Call => ApplyQuiet(cfg, p, bet, lastRaise, action);
    case Bet => ApplyOpening(cfg, p, bet, lastRaise, action);
    case AllIn => ApplyOpening(cfg, p, bet, lastRaise, action);
    case Raise => PutStep(p, action.amount - p.streetCommit, bet, action.amount);
  }

  /** Min-raise discipline: neither the bet nor the last full raise ever falls, and only an all-in raises short. */
  lemma ApplyRaises(cfg: Config, p: Seat, bet: nat, lastRaise: nat, action: PlayerAction)
    requires GoodConfig(cfg) && lastRaise >= cfg.bigBlind && p.streetCommit <= bet
    requires p.streetCommit == bet ==> lastRaise == cfg.bigBlind
    requires Apply(cfg, p, bet, lastRaise, action).Played?
    ensures var o := Apply(cfg, p, bet, lastRaise, action);
      && bet <= o.bet && lastRaise <= o.lastRaise
      && (o.bet == bet <==> action.kind.Fold? || action.kind.Check? || action.kind.Call? || (action.kind.AllIn? && p.streetCommit + p.stack <= bet))
      && (o.bet == bet ==> o.lastRaise == lastRaise && !o.reopen)
      && (action.kind.Raise? ==> o.reopen && o.lastRaise == o.bet - bet)
      && (o.bet > bet && !o.reopen ==> action.kind.AllIn? && o.bet - bet < lastRaise)
  {
  }

  /** Every accepted action is an abstract step. */
  lemma ApplyActs(cfg: Config, seats: seq<Slot>, t: nat, bet: nat, lastRaise: nat, action: PlayerAction)
    requires GoodConfig(cfg) && Sane(seats, bet) && RaiseSize(cfg, seats, bet, lastRaise)
    requires t < |seats| && Owes(seats[t], bet) && DistinctPlayers(seats)
    requires Apply(cfg, seats[t].value, bet, lastRaise, action).Played?
    ensures var o := Apply(cfg, seats[t].value, bet, lastRaise, action);
      && Acts(seats, t, bet, After(seats, t, o), o.bet)
      && lastRaise <= o.lastRaise && (o.bet == bet ==> o.lastRaise == lastRaise)
  {
    var p := seats[t].value;
    var o := Apply(cfg, p, bet, lastRaise, action);
    assert SaneSeat(seats[t], bet);
    ApplyActor(cfg, p, bet, lastRaise, action);
    ApplyRaises(cfg, p, bet, lastRaise, action);
    var seats' := After(seats, t, o);
    forall k: nat | k < |seats| && k != t
      ensures OtherStep(seats[k], seats'[k], bet, o.bet)
    {
    }
  }

  // ---------------------------------------------------------------- progress

  /** Chips still behind and players still in, each worth a full round of actions, plus the actions owed. */
  function Work(seats: seq<Slot>, bet: nat): nat {
    (Sum(seats, StackOf) + |LiveSet(seats)|) * (|seats| + 1) + |OwerSet(seats, bet)|
  }

  lemma {:induction false} IndexSetSize(s: set<nat>, n: nat)
    requires forall i :: i in s ==> i < n
    ensures |s| <= n
  {
    if n == 0 {
      assert s == {};
    } else {
      IndexSetSize(s - {n - 1}, n - 1);
    }
  }

  /** Live seats after a step: the same, or all but the folding actor. */
  lemma LiveAfter(seats: seq<Slot>, t: nat, bet: nat, seats': seq<Slot>, bet': nat)
    requires Acts(seats, t, bet, seats', bet') && Sane(seats, bet) && CanAct(seats[t])
    ensures LiveSet(seats') == if seats'[t].value.folded then LiveSet(seats) - {t} else LiveSet(seats)
    ensures seats'[t].value.folded ==> |LiveSet(seats')| == |LiveSet(seats)| - 1
  {
    forall k: nat | k < |seats| && k != t
      ensures Live(seats'[k]) <==> Live(seats[k])
    {
      assert OtherStep(seats[k], seats'[k], bet, bet');
    }
    assert t in LiveSet(seats);
  }

  lemma StacksAfter(seats: seq<Slot>, t: nat, bet: nat, seats': seq<Slot>, bet': nat)
    requires Acts(seats, t, bet, seats', bet')
    ensures Sum(seats', StackOf) + seats[t].value.stack == Sum(seats, StackOf) + seats'[t].value.stack
    ensures Sum(seats', CommitOf) + seats[t].value.handCommit == Sum(seats, CommitOf) + seats'[t].value.handCommit
  {
    var mid := seats[t := seats'[t]];
    assert forall k: nat :: k < |seats| && k != t ==> OtherStep(seats[k], seats'[k], bet, bet');
    SumSame(seats', mid, StackOf);
    SumSame(seats', mid, CommitOf);
    SumUpdate(seats, t, seats'[t], StackOf);
    SumUpdate(seats, t, seats'[t], CommitOf);
  }

  /** Every action makes progress: chips go in, a player leaves, or one fewer player owes. */
  lemma WorkFalls(seats: seq<Slot>, t: nat, bet: nat, seats': seq<Slot>, bet': nat)
    requires Acts(seats, t, bet, seats', bet') && Sane(seats, bet) && Owes(seats[t], bet)
    ensures Work(seats', bet') < Work(seats, bet)
  {
    var n := |seats|;
    var p, q := seats[t].value, seats'[t].value;
    LiveAfter(seats, t, bet, seats', bet');
    StacksAfter(seats, t, bet, seats', bet');
    IndexSetSize(OwerSet(seats', bet'), n);
    var a := Sum(seats, StackOf) + |LiveSet(seats)|;
    var a' := Sum(seats', StackOf) + |LiveSet(seats')|;
    if q.folded || q.stack < p.stack {
      assert a' <= a - 1;
      FewerRounds(a, a', n, |OwerSet(seats', bet')|);
    } else {
      OwersAfter(seats, t, bet, seats', bet');
    }
  }

  lemma FewerRounds(a: nat, a': nat, n: nat, owed: nat)
    requires a' < a && owed <= n
    ensures a' * (n + 1) + owed < a * (n + 1)
  {
    assert a' * (n + 1) + (n + 1) == (a' + 1) * (n + 1) <= a * (n + 1);
  }

  lemma OwersAfter(seats: seq<Slot>, t: nat, bet: nat, seats': seq<Slot>, bet': nat)
    requires Acts(seats, t, bet, seats', bet') && Sane(seats, bet) && Owes(seats[t], bet)
    requires !seats'[t].value.folded && seats'[t].value.stack == seats[t].value.stack
    ensures |OwerSet(seats', bet')| == |OwerSet(seats, bet)| - 1
  {
    assert SaneSeat(seats[t], bet);
    forall k: nat | k < |seats| && k != t
      ensures seats'[k] == seats[k]
    {
      OthersOwe(seats, t, bet, seats', bet', k);
    }
    assert OwerSet(seats', bet') == OwerSet(seats, bet) - {t};
  }
}
