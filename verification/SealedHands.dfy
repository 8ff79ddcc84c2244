/**
 * The table and the shuffle together: what the public view shows of a hand's seed, and when. The commitment is on show
 * for the whole hand, the seed behind it only once the hand has been cleaned up, and every card seen in between is a
 * fixed position of the deck that seed determines.
 */
module SealedHands {
  import opened Common
  import opened Cards
  import opened Seats
  import opened Betting
  import opened HandRules
  import opened HandInvariant
  import opened HandRuns
  import opened HandStart
  import opened TableSession
  import opened Shuffle
  import opened BestHandsWin
  import opened TableDirectory
  import opened PokerTable

  /** What the deal source hands the table with the cards: a commitment, and the seed and nonce behind it. */
  datatype Seal = Seal(commitment: nat, seed: nat, nonce: nat)

  /** `openHand`. */
  function OpenSeal(h: Hash, seed: nat, nonce: nat): Seal {
    Seal(h.commit(seed, nonce), seed, nonce)
  }

  /** A table together with the deal of its latest hand. */
  datatype Sealed = Sealed(st: State, seal: Option<Seal>)

  /** The part of `snapshot` that concerns the seed. */
  datatype Shown = Shown(commitment: Option<nat>, opening: Option<(nat, nat)>)

  function Snapshot(s: Sealed): Shown {
    match s.seal
    case None => Shown(None, None)
    case Some(seal) => Shown(Some(seal.commitment), if s.st.street.Waiting? then Some((seal.seed, seal.nonce)) else None)
  }

  // ---------------------------------------------------------------- commands

  /** Begin a hand under a seed and nonce, or any other command. */
  datatype Deed = Begin(seed: nat, nonce: nat) | Other(command: Command)

  predicate GoodDeed(d: Deed) {
    d.Other? ==> !d.command.Start?
  }

  ghost function Perform(g: Game, h: Hash, s: Sealed, d: Deed): Sealed
    requires Shaped(g, s.st) && GoodHash(h) && GoodDeed(d)
  {
    match d
    case Other(c) => s.(st := Exec(g, s.st, c))
    case Begin(seed, nonce) =>
      match StartHand(g, s.st, DeckOf(h, seed, nonce))
      case Ok(next) => Sealed(next, Some(OpenSeal(h, seed, nonce)))
      case Err(_) => s.(st := Idle(g, s.st))
  }

  // ---------------------------------------------------------------- the invariant

  /** The seal is that of the deck on the table. */
  ghost predicate SealFits(h: Hash, s: Sealed)
    requires GoodHash(h)
  {
    s.seal.Some? ==>
      var seal := s.seal.value;
      seal == OpenSeal(h, seal.seed, seal.nonce) && s.st.deck == DeckOf(h, seal.seed, seal.nonce)
  }

  /** The cards in the players' hands, the burns and the board are drawn from fixed positions of a deck. */
  ghost predicate CardsFixed(st: State, deck: seq<Card>) {
    && st.deck == deck && DealtFromDeck(st)
    && exists s: Street :: IsBetting(s) && CardsAt(st, |DealtIn(st.seats)|, s)
  }

  ghost predicate SealedInv(g: Game, h: Hash, s: Sealed) {
    && GoodHash(h) && TableInv(g, s.st) && SealFits(h, s)
    && (HandOrPaid(g, s.st) ==> s.seal.Some? && CardsFixed(s.st, s.st.deck))
  }

  lemma NewSealed(g: Game, h: Hash)
    requires GoodConfig(g.cfg) && GoodHash(h)
    ensures SealedInv(g, h, Sealed(NewTable(g), None))
  {
    NewTableInv(g);
  }

  /** A hand that has begun has its cards at fixed positions. */
  lemma BegunFixed(g: Game, st: State, deck: seq<Card>)
    requires IdleInv(g, st) && |deck| == DECK_SIZE && StartHand(g, st, deck).Ok?
    ensures var next := StartHand(g, st, deck).value;
      HandOrPaid(g, next) && CardsFixed(next, deck) && next.handId == st.handId + 1
  {
    hide Opened, StartHand, HandOrPaid, DealtFromDeck;
    StartsReady(g, st, deck);
    StartHandSafe(g, st, deck);
    StartKeepsDeal(g, st, deck);
    RunFromDeck(g, st, deck, []);
    OpenedNumber(g, st, deck);
    var s := BoardOfRun(g, StartHand(g, st, deck).value);
  }

  lemma OpenedNumber(g: Game, st: State, deck: seq<Card>)
    requires IdleInv(g, st) && |deck| == DECK_SIZE && NextButton(MapSeats(st.seats, FreshHand), st.button) < |st.seats|
    ensures Opened(g, st, deck).handId == st.handId + 1
  {
  }

  /** What a command other than a start leaves: the same deal, or a table between hands with the same deck. */
  lemma OtherKeepsDeal(g: Game, st: State, c: Command)
    requires TableInv(g, st) && GoodCommand(c) && !c.Start?
    ensures Shaped(g, st)
    ensures var next := Exec(g, st, c);
      && TableInv(g, next) && next.deck == st.deck && next.handId == st.handId
      && (HandOrPaid(g, next) ==> HandOrPaid(g, st) && SameDeal(st, next))
  {
    hide HandInv, PaidInv;
    InvShaped(g, st);
    ExecKeeps(g, st, c);
    IdleKeeps(g, st);
    if c.Do? {
      if Act(g, st, c.move.playerId, c.move.action).Ok? {
        OnlyHandsAct(g, st, c.move);
        ActKeeps(g, st, c.move.playerId, c.move.action);
      } else {
        SameDealSelf(st);
      }
    } else {
      IdleSame(g, st, c);
      InvShaped(g, Exec(g, st, c));
      SameDealSelf(st);
    }
  }

  lemma OnlyHandsAct(g: Game, st: State, m: Move)
    requires TableInv(g, st) && Shaped(g, st) && Act(g, st, m.playerId, m.action).Ok?
    ensures HandInv(g, st)
  {
  }

  /** Sitting down, adding on, leaving and cleaning up leave the street of the cleaned-up table, or change nothing. */
  lemma IdleSame(g: Game, st: State, c: Command)
    requires TableInv(g, st) && Shaped(g, st) && GoodCommand(c) && !c.Start? && !c.Do?
    ensures var next := Exec(g, st, c);
      next.deck == st.deck && next.handId == st.handId && (next.street.Waiting? || next == st)
  {
    hide CardsAt, Settled, MapSeats, FindSeat, FirstEmpty;
  }

  lemma FixedKept(a: State, b: State, s: Street)
    requires SameDeal(a, b) && DealtFromDeck(a) && IsBetting(s) && CardsAt(b, |DealtIn(b.seats)|, s)
    ensures CardsFixed(b, a.deck)
  {
    DealKept(a, b);
  }

  /** Every command, accepted or refused, keeps the seal on the table's deck. */
  lemma PerformKeeps(g: Game, h: Hash, s: Sealed, d: Deed)
    requires SealedInv(g, h, s) && GoodDeed(d)
    ensures Shaped(g, s.st) && GoodHash(h) && SealedInv(g, h, Perform(g, h, s, d))
    ensures Perform(g, h, s, d).st.handId >= s.st.handId
  {
    hide HandOrPaid, TableInv, Idle, Exec, StartHand, DealtFromDeck, CardsAt;
    InvShaped(g, s.st);
    IdleKeeps(g, s.st);
    match d
    case Other(c) =>
      var next := Exec(g, s.st, c);
      OtherKeepsDeal(g, s.st, c);
      if HandOrPaid(g, next) {
        var street := BoardOfRun(g, next);
        FixedKept(s.st, next, street);
      }
    case Begin(seed, nonce) =>
      IdleNumber(g, s.st);
      if StartHand(g, s.st, DeckOf(h, seed, nonce)).Ok? {
        BeginKeeps(g, s.st, DeckOf(h, seed, nonce));
      }
  }

  lemma IdleNumber(g: Game, st: State)
    requires TableInv(g, st)
    ensures var idle := Idle(g, st);
      && TableInv(g, idle) && idle.handId == st.handId && idle.deck == st.deck
      && (HandOrPaid(g, idle) ==> idle == st)
  {
    hide Settled, CardsAt, MapSeats;
    IdleKeeps(g, st);
  }

  /** Starting a hand is cleaning up first. */
  lemma StartsIdle(g: Game, st: State, deck: seq<Card>)
    requires TableInv(g, st) && Shaped(g, st) && |deck| == DECK_SIZE && StartHand(g, st, deck).Ok?
    ensures IdleInv(g, Idle(g, st)) && StartHand(g, Idle(g, st), deck) == StartHand(g, st, deck)
  {
    hide Settled, Opened, NextStreet, Closed, CardsAt;
    IdleKeeps(g, st);
  }

  lemma BeginKeeps(g: Game, st: State, deck: seq<Card>)
    requires TableInv(g, st) && Shaped(g, st) && |deck| == DECK_SIZE && StartHand(g, st, deck).Ok?
    ensures var next := StartHand(g, st, deck).value;
      HandOrPaid(g, next) && TableInv(g, next) && CardsFixed(next, deck) && next.handId == st.handId + 1
  {
    hide CardsFixed, StartHand, HandInv, PaidInv, IdleInv, Idle;
    IdleNumber(g, st);
    StartsIdle(g, st, deck);
    BegunFixed(g, Idle(g, st), deck);
  }

  // ---------------------------------------------------------------- whole sessions

  ghost predicate GoodDeeds(deeds: seq<Deed>) {
    forall i :: 0 <= i < |deeds| ==> GoodDeed(deeds[i])
  }

  ghost function PerformAll(g: Game, h: Hash, s: Sealed, deeds: seq<Deed>): Sealed
    requires SealedInv(g, h, s) && GoodDeeds(deeds)
    decreases |deeds|
  {
    if deeds == [] then s
    else
      PerformKeeps(g, h, s, deeds[0]);
      PerformAll(g, h, Perform(g, h, s, deeds[0]), deeds[1..])
  }

  lemma {:induction false} AllKeep(g: Game, h: Hash, s: Sealed, deeds: seq<Deed>)
    requires SealedInv(g, h, s) && GoodDeeds(deeds)
    ensures SealedInv(g, h, PerformAll(g, h, s, deeds)) && PerformAll(g, h, s, deeds).st.handId >= s.st.handId
    decreases |deeds|
  {
    hide SealedInv, Perform;
    if deeds != [] {
      PerformKeeps(g, h, s, deeds[0]);
      AllKeep(g, h, Perform(g, h, s, deeds[0]), deeds[1..]);
    }
  }

  /** A later moment of the same hand, or of the pause after it. */
  ghost predicate Later(g: Game, a: Sealed, b: Sealed) {
    b.seal == a.seal && b.st.deck == a.st.deck && b.st.handId == a.st.handId && (HandOrPaid(g, b.st) ==> SameDeal(a.st, b.st))
  }

  /** Unless another hand begins, the deal stays. */
  lemma LaterKept(g: Game, h: Hash, a: Sealed, b: Sealed, d: Deed)
    requires SealedInv(g, h, b) && GoodDeed(d) && Later(g, a, b)
    ensures Shaped(g, b.st)
    ensures var c := Perform(g, h, b, d); c.st.handId == a.st.handId ==> Later(g, a, c)
  {
    hide HandOrPaid, TableInv, Idle, Exec, StartHand, CardsFixed, SameDeal;
    InvShaped(g, b.st);
    match d
    case Other(c) =>
      OtherKeepsDeal(g, b.st, c);
      if HandOrPaid(g, Exec(g, b.st, c)) {
        SameDealCompose(a.st, b.st, Exec(g, b.st, c));
      }
    case Begin(seed, nonce) =>
      IdleNumber(g, b.st);
      if StartHand(g, b.st, DeckOf(h, seed, nonce)).Ok? {
        BeginKeeps(g, b.st, DeckOf(h, seed, nonce));
      }
  }

  lemma {:induction false} AllLater(g: Game, h: Hash, a: Sealed, b: Sealed, deeds: seq<Deed>)
    requires SealedInv(g, h, b) && GoodDeeds(deeds) && Later(g, a, b)
    requires PerformAll(g, h, b, deeds).st.handId == a.st.handId
    ensures Later(g, a, PerformAll(g, h, b, deeds))
    decreases |deeds|
  {
    hide SealedInv, Perform;
    if deeds != [] {
      PerformKeeps(g, h, b, deeds[0]);
      var next := Perform(g, h, b, deeds[0]);
      AllKeep(g, h, next, deeds[1..]);
      LaterNumber(g, a, b);
      LaterKept(g, h, a, b, deeds[0]);
      AllLater(g, h, a, next, deeds[1..]);
    }
  }

  lemma LaterNumber(g: Game, a: Sealed, b: Sealed)
    requires Later(g, a, b)
    ensures a.st.handId == b.st.handId
  {
  }

  /**
   * Commit and reveal at the table. Take any moment of a hand and any later moment before another hand begins, whatever
   * was asked of the table in between. The commitment on show is the same; at the first moment no seed is shown; at the
   * second a seed and nonce are shown exactly when the hand has been cleaned up. They open the commitment, and every
   * hole card, burn and board card of the hand was at its fixed position in the deck they determine.
   */
  lemma RevealOpensCommitment(g: Game, h: Hash, s: Sealed, deeds: seq<Deed>)
    requires SealedInv(g, h, s) && HandOrPaid(g, s.st) && GoodDeeds(deeds)
    requires PerformAll(g, h, s, deeds).st.handId == s.st.handId
    ensures var first, last := Snapshot(s), Snapshot(PerformAll(g, h, s, deeds));
      && first.commitment.Some? && first.opening.None? && last.commitment == first.commitment
      && (last.opening.Some? <==> PerformAll(g, h, s, deeds).st.street.Waiting?)
      && (last.opening.Some? ==>
            var (seed, nonce) := last.opening.value;
            h.commit(seed, nonce) == first.commitment.value && CardsFixed(s.st, DeckOf(h, seed, nonce)))
  {
    hide CardsFixed, SameDeal;
    InvShaped(g, s.st);
    SameDealSelf(s.st);
    AllLater(g, h, s, s, deeds);
  }

  /** With m players dealt in, the k-th in order holds cards k and m + k. */
  ghost predicate HoldsAt(seats: seq<Slot>, order: seq<nat>, deck: seq<Card>, k: nat)
    requires k < |order|
  {
    && order[k] < |seats| && seats[order[k]].Some? && |order| + k < |deck|
    && seats[order[k]].value.hole == [deck[k], deck[|order| + k]]
  }

  ghost predicate HoldInOrder(seats: seq<Slot>, order: seq<nat>, deck: seq<Card>) {
    forall k: nat :: k < |order| ==> HoldsAt(seats, order, deck, k)
  }

  lemma BegunInOrder(g: Game, st: State, deck: seq<Card>, end: State)
    requires IdleInv(g, st) && |deck| == DECK_SIZE && StartHand(g, st, deck).Ok? && SameDeal(StartHand(g, st, deck).value, end)
    ensures HoldInOrder(end.seats, StartOrder(g, st), deck)
  {
    hide StartHand, StartOrder, HandOrPaid;
    var order := StartOrder(g, st);
    var begun := StartHand(g, st, deck).value;
    StartHandSafe(g, st, deck);
    forall k: nat | k < |order|
      ensures HoldsAt(end.seats, order, deck, k)
    {
      HolesFixed(g, st, deck, [], k);
      assert SameHole(begun.seats[order[k]], end.seats[order[k]]);
    }
  }

  /**
   * The same from the start of the hand: under seed and nonce the commitment shown is theirs; while the hand runs the
   * k-th player dealt in holds cards k and m + k of the deck they determine, whatever has been done since; and they are
   * what is revealed when the hand has been cleaned up.
   */
  lemma HandUnderSeal(g: Game, h: Hash, s: Sealed, seed: nat, nonce: nat, deeds: seq<Deed>)
    requires SealedInv(g, h, s) && GoodDeeds(deeds) && Shaped(g, s.st)
    requires StartHand(g, s.st, DeckOf(h, seed, nonce)).Ok?
    ensures IdleInv(g, Idle(g, s.st)) && SealedInv(g, h, Perform(g, h, s, Begin(seed, nonce)))
    ensures var end := PerformAll(g, h, Perform(g, h, s, Begin(seed, nonce)), deeds); var deck := DeckOf(h, seed, nonce);
      end.st.handId == s.st.handId + 1 ==>
        && Snapshot(end) == Shown(Some(h.commit(seed, nonce)), if end.st.street.Waiting? then Some((seed, nonce)) else None)
        && (!end.st.street.Waiting? ==>
              CardsFixed(end.st, deck) && HoldInOrder(end.st.seats, StartOrder(g, Idle(g, s.st)), deck))
  {
    hide CardsFixed, SameDeal, DealtFromDeck, HandOrPaid, TableInv, StartHand, HoldInOrder, StartOrder, Idle;
    var deck := DeckOf(h, seed, nonce);
    PerformKeeps(g, h, s, Begin(seed, nonce));
    var begun := Perform(g, h, s, Begin(seed, nonce));
    var end := PerformAll(g, h, begun, deeds);
    BeginKeeps(g, s.st, deck);
    StartsIdle(g, s.st, deck);
    SameDealSelf(begun.st);
    AllKeep(g, h, begun, deeds);
    InvShaped(g, end.st);
    if end.st.handId == begun.st.handId {
      AllLater(g, h, begun, begun, deeds);
      if HandOrPaid(g, end.st) {
        BegunInOrder(g, Idle(g, s.st), deck, end.st);
      }
    }
  }

  // ---------------------------------------------------------------- the table with its deal

  /** A table and the deal of its latest hand, as the program keeps them. */
  class SealedTable {
    const h: Hash
    const table: Table
    var deal: Option<Seal>

    ghost function View(): Sealed
      reads this, table
    {
      Sealed(table.View(), deal)
    }

    ghost predicate Valid()
      reads this, table
    {
      SealedInv(table.g, h, View())
    }

    constructor (h: Hash, tableId: TableId, g: Game)
      requires GoodHash(h) && GoodConfig(g.cfg)
      ensures Valid() && fresh(table) && this.h == h && table.tableId == tableId && table.g == g && View() == Sealed(NewTable(g), None)
    {
      this.h := h;
      table := new Table(tableId, g);
      deal := None;
      new;
      NewSealed(g, h);
    }

    /** Start a hand on the deck of a new seed and nonce. A refused start opens no deal. */
    method StartHand(seed: nat, nonce: nat) returns (error: Option<TableError>)
      requires Valid()
      modifies this`deal, table
      ensures Valid() && Shaped(table.g, old(View()).st)
      ensures View() == Perform(table.g, h, old(View()), Begin(seed, nonce))
      ensures error == ErrorOf(HandRules.StartHand(table.g, old(View()).st, DeckOf(h, seed, nonce)))
    {
      hide TableInv, HandOrPaid, CardsFixed, HandRules.StartHand;
      PerformKeeps(table.g, h, View(), Begin(seed, nonce));
      var deck := MakeDeck(h, seed, nonce);
      error := table.StartHand(deck);
      if error.None? {
        deal := Some(OpenSeal(h, seed, nonce));
      }
    }

    method Act(playerId: PlayerId, action: PlayerAction) returns (error: Option<TableError>)
      requires Valid()
      modifies table
      ensures Valid() && Shaped(table.g, old(View()).st)
      ensures View() == Perform(table.g, h, old(View()), Other(Do(Move(playerId, action))))
      ensures error == ErrorOf(HandRules.Act(table.g, old(View()).st, playerId, action))
    {
      hide TableInv, HandOrPaid, CardsFixed, HandRules.Act;
      PerformKeeps(table.g, h, View(), Other(Do(Move(playerId, action))));
      error := table.Act(playerId, action);
    }

    method FinalizeHandIfComplete() returns (ran: bool)
      requires Valid()
      modifies table
      ensures Valid() && Shaped(table.g, old(View()).st) && View() == Perform(table.g, h, old(View()), Other(Finalize))
    {
      hide TableInv, HandOrPaid, CardsFixed;
      PerformKeeps(table.g, h, View(), Other(Finalize));
      ran := table.FinalizeHandIfComplete();
    }

    /** What anyone may see of the deal. */
    method PublicDeal() returns (shown: Shown)
      ensures shown == Snapshot(View())
    {
      if deal.None? {
        return Shown(None, None);
      }
      var opening := None;
      if table.street.Waiting? {
        opening := Some((deal.value.seed, deal.value.nonce));
      }
      return Shown(Some(deal.value.commitment), opening);
    }
  }
}
