/**
 * The deal service: a hand is opened with a commitment, drawn from card by card, and closed with the seed
 * revealed. Everything is recorded in an append-only history.
 */
module DealRng {
  import opened Common
  import opened Cards
  import opened Shuffle

  type HandId = nat

  datatype Kind = Next | Burn

  datatype DrawnCard = DrawnCard(index: nat, kind: Kind, card: Card)

  datatype LiveHand = LiveHand(commitment: nat, seed: nat, nonce: nat, deck: seq<Card>, cursor: nat, draws: seq<DrawnCard>)

  /** A closed hand; `extra` is the caller's own record of hole and board cards. */
  datatype HandResult = HandResult(handId: HandId, commitment: nat, seed: nat, nonce: nat, deckOrder: seq<Card>,
                                   draws: seq<DrawnCard>, burnCards: seq<Card>, extra: nat)

  datatype HistoryEvent = HandOpen(handId: HandId, commitment: nat) | HandClose(handId: HandId, result: HandResult)

  datatype State = State(live: map<HandId, LiveHand>, log: seq<HistoryEvent>)

  datatype Error = AlreadyUsed | NotLive | DeckExhausted | VerificationFailed

  datatype Reply<+T> = Ok(value: T) | Err(error: Error)

  /** What `peekPublic` shows: never the seed of a hand that is still live. */
  datatype Public = Public(commitment: nat, closed: bool, drawCount: nat, result: Option<HandResult>)

  // ---------------------------------------------------------------- the operations

  /** The latest close of a hand in the history. */
  function LatestClose(log: seq<HistoryEvent>, id: HandId): (r: Option<HandResult>)
    ensures r.Some? <==> exists j :: 0 <= j < |log| && log[j].HandClose? && log[j].handId == id
  {
    if log == [] then None
    else
      var last := |log| - 1;
      if log[last].HandClose? && log[last].handId == id then Some(log[last].result)
      else LatestClose(log[..last], id)
  }

  ghost function Open(h: Hash, s: State, id: HandId, seed: nat, nonce: nat): Reply<State>
    requires GoodHash(h)
  {
    if id in s.live || LatestClose(s.log, id).Some? then Err(AlreadyUsed)
    else
      var hand := LiveHand(h.commit(seed, nonce), seed, nonce, DeckOf(h, seed, nonce), 0, []);
      Ok(State(s.live[id := hand], s.log + [HandOpen(id, hand.commitment)]))
  }

  function Draw(s: State, id: HandId, kind: Kind): Reply<State> {
    if id !in s.live then Err(NotLive)
    else
      var hand := s.live[id];
      if hand.cursor >= |hand.deck| then Err(DeckExhausted)
      else
        var drawn := DrawnCard(hand.cursor, kind, hand.deck[hand.cursor]);
        Ok(s.(live := s.live[id := hand.(cursor := hand.cursor + 1, draws := hand.draws + [drawn])]))
  }

  function Burned(draws: seq<DrawnCard>): seq<Card> {
    if draws == [] then []
    else
      var last := draws[|draws| - 1];
      Burned(draws[..|draws| - 1]) + if last.kind.Burn? then [last.card] else []
  }

  ghost predicate Verifies(h: Hash, hand: LiveHand)
    requires GoodHash(h)
  {
    h.commit(hand.seed, hand.nonce) == hand.commitment && DeckFollows(hand.deck, DeckOrder(h, hand.seed, hand.nonce))
  }

  function ResultOf(id: HandId, hand: LiveHand, extra: nat): HandResult {
    HandResult(id, hand.commitment, hand.seed, hand.nonce, hand.deck, hand.draws, Burned(hand.draws), extra)
  }

  /** A closed hand answers with its result again; a live one is verified, recorded and dropped. */
  ghost function Close(h: Hash, s: State, id: HandId, extra: nat): Reply<(State, HandResult)>
    requires GoodHash(h)
  {
    match LatestClose(s.log, id)
    case Some(r) => Ok((s, r))
    case None =>
      if id !in s.live then Err(NotLive)
      else if !Verifies(h, s.live[id]) then Err(VerificationFailed)
      else
        var r := ResultOf(id, s.live[id], extra);
        Ok((State(s.live - {id}, s.log + [HandClose(id, r)]), r))
  }

  function Peek(s: State, id: HandId): Reply<Public> {
    match LatestClose(s.log, id)
    case Some(r) => Ok(Public(r.commitment, true, |r.draws|, Some(r)))
    case None =>
      if id !in s.live then Err(NotLive)
      else Ok(Public(s.live[id].commitment, false, |s.live[id].draws|, None))
  }

  // ---------------------------------------------------------------- the invariant

  /** The i-th draw is the i-th card of the deck. */
  predicate DrawsFollow(draws: seq<DrawnCard>, deck: seq<Card>) {
    |draws| <= |deck| && forall i :: 0 <= i < |draws| ==> draws[i].index == i && draws[i].card == deck[i]
  }

  /** A live hand follows its seed, opened with its commitment, and is not closed. */
  ghost predicate LiveRight(h: Hash, s: State, id: HandId)
    requires GoodHash(h) && id in s.live
  {
    var hand := s.live[id];
    && hand.commitment == h.commit(hand.seed, hand.nonce) && hand.deck == DeckOf(h, hand.seed, hand.nonce)
    && hand.cursor == |hand.draws| && DrawsFollow(hand.draws, hand.deck)
    && HandOpen(id, hand.commitment) in s.log && LatestClose(s.log, id).None?
  }

  /** A close reveals what the hand's one opening committed to. */
  ghost predicate CloseRight(h: Hash, log: seq<HistoryEvent>, j: nat)
    requires GoodHash(h) && j < |log| && log[j].HandClose?
  {
    var r := log[j].result;
    && r.handId == log[j].handId && HandOpen(r.handId, r.commitment) in log[..j]
    && r.commitment == h.commit(r.seed, r.nonce) && r.deckOrder == DeckOf(h, r.seed, r.nonce)
    && DrawsFollow(r.draws, r.deckOrder) && r.burnCards == Burned(r.draws)
  }

  /** No hand is opened twice, and none is closed twice. */
  predicate OnceEach(log: seq<HistoryEvent>) {
    forall i, j :: 0 <= i < j < |log| && log[i].handId == log[j].handId ==> log[i].HandOpen? && log[j].HandClose?
  }

  ghost predicate Inv(h: Hash, s: State) {
    && GoodHash(h) && OnceEach(s.log)
    && (forall id :: id in s.live ==> LiveRight(h, s, id))
    && (forall j: nat :: j < |s.log| && s.log[j].HandClose? ==> CloseRight(h, s.log, j))
    && forall j: nat :: j < |s.log| && s.log[j].HandOpen? ==> s.log[j].handId in s.live || LatestClose(s.log, s.log[j].handId).Some?
  }

  lemma CloseAppended(log: seq<HistoryEvent>, e: HistoryEvent, id: HandId)
    ensures LatestClose(log + [e], id) == if e.HandClose? && e.handId == id then Some(e.result) else LatestClose(log, id)
  {
  }

  lemma CloseRightKept(h: Hash, log: seq<HistoryEvent>, e: HistoryEvent, j: nat)
    requires GoodHash(h) && j < |log| && log[j].HandClose? && CloseRight(h, log, j)
    ensures CloseRight(h, log + [e], j)
  {
    assert (log + [e])[..j] == log[..j];
  }

  /** An id that has not been used is not in the history. */
  lemma UnusedIsNew(h: Hash, s: State, id: HandId)
    requires Inv(h, s) && id !in s.live && LatestClose(s.log, id).None?
    ensures forall j :: 0 <= j < |s.log| ==> s.log[j].handId != id
  {
  }

  lemma OpenKeeps(h: Hash, s: State, id: HandId, seed: nat, nonce: nat)
    requires Inv(h, s) && Open(h, s, id, seed, nonce).Ok?
    ensures Inv(h, Open(h, s, id, seed, nonce).value)
  {
    hide DeckOf, GoodHash, LatestClose;
    var next := Open(h, s, id, seed, nonce).value;
    var e := next.log[|s.log|];
    assert next.log == s.log + [e];
    UnusedIsNew(h, s, id);
    forall k | k in next.live
      ensures LiveRight(h, next, k)
    {
      CloseAppended(s.log, e, k);
      assert k != id ==> LiveRight(h, s, k);
    }
    forall j: nat | j < |next.log| && next.log[j].HandClose?
      ensures CloseRight(h, next.log, j)
    {
      CloseRightKept(h, s.log, e, j);
    }
    forall j: nat | j < |next.log| && next.log[j].HandOpen?
      ensures next.log[j].handId in next.live || LatestClose(next.log, next.log[j].handId).Some?
    {
      CloseAppended(s.log, e, next.log[j].handId);
    }
  }

  lemma DrawKeeps(h: Hash, s: State, id: HandId, kind: Kind)
    requires Inv(h, s) && Draw(s, id, kind).Ok?
    ensures Inv(h, Draw(s, id, kind).value)
  {
    hide DeckOf, GoodHash, LatestClose, CloseRight, OnceEach, LiveRight;
    var next := Draw(s, id, kind).value;
    forall k | k in next.live
      ensures LiveRight(h, next, k)
    {
      DrawnRight(h, s, id, kind, k);
    }
  }

  lemma DrawnRight(h: Hash, s: State, id: HandId, kind: Kind, k: HandId)
    requires GoodHash(h) && k in s.live && LiveRight(h, s, k) && Draw(s, id, kind).Ok?
    ensures k in Draw(s, id, kind).value.live && LiveRight(h, Draw(s, id, kind).value, k)
  {
    hide DeckOf, GoodHash, LatestClose;
  }

  /** The next card of a live hand is the next card of the deck its seed generates. */
  lemma NextDraw(h: Hash, s: State, id: HandId)
    requires Inv(h, s) && id in s.live
    ensures var hand := s.live[id];
      GoodHash(h) && hand.deck == DeckOf(h, hand.seed, hand.nonce) && hand.cursor == |hand.draws| && |hand.deck| == DECK_SIZE
  {
    hide GoodHash, LatestClose, CloseRight, OnceEach;
    assert LiveRight(h, s, id);
  }

  /** A live hand was opened, so its id occurs in the history once, as an opening. */
  lemma LiveIsOpen(h: Hash, s: State, id: HandId)
    requires Inv(h, s) && id in s.live
    ensures forall j :: 0 <= j < |s.log| && s.log[j].handId == id ==> s.log[j].HandOpen?
  {
    assert LiveRight(h, s, id);
  }

  /** Verification cannot fail: the deck of a live hand is always the one its seed generates. */
  lemma AlwaysVerifies(h: Hash, s: State, id: HandId)
    requires Inv(h, s) && id in s.live
    ensures Verifies(h, s.live[id])
  {
    assert LiveRight(h, s, id);
  }

  lemma ClosedLive(h: Hash, s: State, id: HandId, r: HandResult, k: HandId)
    requires Inv(h, s) && k in s.live && k != id
    ensures LiveRight(h, State(s.live - {id}, s.log + [HandClose(id, r)]), k)
  {
    hide DeckOf, GoodHash, LatestClose;
    CloseAppended(s.log, HandClose(id, r), k);
    assert LiveRight(h, s, k);
  }

  lemma ClosedRecord(h: Hash, s: State, id: HandId, extra: nat, j: nat)
    requires Inv(h, s) && id in s.live
    requires var log := s.log + [HandClose(id, ResultOf(id, s.live[id], extra))]; j < |log| && log[j].HandClose?
    ensures CloseRight(h, s.log + [HandClose(id, ResultOf(id, s.live[id], extra))], j)
  {
    hide DeckOf, GoodHash, LatestClose;
    var e := HandClose(id, ResultOf(id, s.live[id], extra));
    if j < |s.log| {
      CloseRightKept(h, s.log, e, j);
    } else {
      assert (s.log + [e])[..j] == s.log;
      assert LiveRight(h, s, id);
    }
  }

  lemma ClosedOnce(h: Hash, s: State, id: HandId, r: HandResult)
    requires Inv(h, s) && id in s.live
    ensures OnceEach(s.log + [HandClose(id, r)])
  {
    hide DeckOf, GoodHash, LatestClose, LiveRight, CloseRight;
    LiveIsOpen(h, s, id);
  }

  lemma CloseKeeps(h: Hash, s: State, id: HandId, extra: nat)
    requires Inv(h, s) && Close(h, s, id, extra).Ok?
    ensures Inv(h, Close(h, s, id, extra).value.0)
  {
    hide DeckOf, GoodHash, LatestClose, Verifies, LiveRight, CloseRight, OnceEach, ResultOf;
    if LatestClose(s.log, id).None? {
      var e := HandClose(id, ResultOf(id, s.live[id], extra));
      var next := State(s.live - {id}, s.log + [e]);
      ClosedOnce(h, s, id, e.result);
      forall k | k in next.live ensures LiveRight(h, next, k) { ClosedLive(h, s, id, e.result, k); }
      forall j: nat | j < |next.log| && next.log[j].HandClose? ensures CloseRight(h, next.log, j) { ClosedRecord(h, s, id, extra, j); }
      forall j: nat | j < |next.log| && next.log[j].HandOpen?
        ensures next.log[j].handId in next.live || LatestClose(next.log, next.log[j].handId).Some?
      {
        CloseAppended(s.log, e, next.log[j].handId);
      }
    }
  }

  // ---------------------------------------------------------------- whole runs

  datatype Event = OpenHand(id: HandId, seed: nat, nonce: nat) | DrawCard(id: HandId, kind: Kind) | CloseHand(id: HandId, extra: nat)

  /** One call; a refused one changes nothing. */
  ghost function Step(h: Hash, s: State, e: Event): State
    requires GoodHash(h)
  {
    match e
    case OpenHand(id, seed, nonce) => (match Open(h, s, id, seed, nonce) case Ok(next) => next case Err(_) => s)
    case DrawCard(id, kind) => (match Draw(s, id, kind) case Ok(next) => next case Err(_) => s)
    case CloseHand(id, extra) => (match Close(h, s, id, extra) case Ok(done) => done.0 case Err(_) => s)
  }

  ghost function Run(h: Hash, s: State, es: seq<Event>): State
    requires GoodHash(h)
    decreases |es|
  {
    if es == [] then s else Run(h, Step(h, s, es[0]), es[1..])
  }

  lemma StepKeeps(h: Hash, s: State, e: Event)
    requires Inv(h, s)
    ensures Inv(h, Step(h, s, e)) && s.log <= Step(h, s, e).log
  {
    hide GoodHash, LiveRight, CloseRight, OnceEach, DeckOf, Verifies;
    match e
    case OpenHand(id, seed, nonce) => if Open(h, s, id, seed, nonce).Ok? { OpenKeeps(h, s, id, seed, nonce); }
    case DrawCard(id, kind) => if Draw(s, id, kind).Ok? { DrawKeeps(h, s, id, kind); }
    case CloseHand(id, extra) => if Close(h, s, id, extra).Ok? { CloseKeeps(h, s, id, extra); }
  }

  /** Over every run the history only grows and stays right. */
  lemma {:induction false} RunKeeps(h: Hash, s: State, es: seq<Event>)
    requires Inv(h, s)
    ensures Inv(h, Run(h, s, es)) && s.log <= Run(h, s, es).log
    decreases |es|
  {
    hide GoodHash, LiveRight, CloseRight, Step;
    if es != [] {
      StepKeeps(h, s, es[0]);
      RunKeeps(h, Step(h, s, es[0]), es[1..]);
    }
  }

  const EMPTY := State(map[], [])

  lemma EmptyInv(h: Hash)
    requires GoodHash(h)
    ensures Inv(h, EMPTY)
  {
  }

  /** The one close of a hand, wherever the history has it. */
  lemma CloseIs(h: Hash, s: State, j: nat)
    requires Inv(h, s) && j < |s.log| && s.log[j].HandClose?
    ensures LatestClose(s.log, s.log[j].handId) == Some(s.log[j].result)
  {
    hide GoodHash, LiveRight, CloseRight;
    LatestIs(s.log, s.log[j].handId);
  }

  lemma {:induction false} LatestIs(log: seq<HistoryEvent>, id: HandId)
    ensures LatestClose(log, id).Some? ==>
      exists k :: 0 <= k < |log| && log[k].HandClose? && log[k].handId == id && log[k].result == LatestClose(log, id).value
  {
    if log != [] {
      var last := |log| - 1;
      if log[last].HandClose? && log[last].handId == id {
      } else {
        LatestIs(log[..last], id);
        if LatestClose(log[..last], id).Some? {
          var k :| 0 <= k < last && log[..last][k].HandClose? && log[..last][k].handId == id
            && log[..last][k].result == LatestClose(log[..last], id).value;
          assert log[k] == log[..last][k];
        }
      }
    }
  }

  /** What a close may reveal of a hand opened with commitment c. */
  ghost predicate Reveals(h: Hash, r: HandResult, c: nat)
    requires GoodHash(h)
  {
    h.commit(r.seed, r.nonce) == c && r.deckOrder == DeckOf(h, r.seed, r.nonce) && DrawsFollow(r.draws, r.deckOrder)
  }

  /** The public view of a hand opened with commitment c. */
  ghost predicate Bound(h: Hash, s: State, id: HandId, c: nat)
    requires GoodHash(h)
  {
    && Peek(s, id).Ok? && Peek(s, id).value.commitment == c
    && Peek(s, id).value.closed == (id !in s.live) == Peek(s, id).value.result.Some?
    && (id !in s.live ==> Reveals(h, Peek(s, id).value.result.value, c))
  }

  lemma SameOpening(log: seq<HistoryEvent>, id: HandId, c: nat, c': nat)
    requires OnceEach(log) && HandOpen(id, c) in log && HandOpen(id, c') in log
    ensures c == c'
  {
  }

  lemma ClosedBound(h: Hash, s: State, id: HandId, c: nat)
    requires Inv(h, s) && HandOpen(id, c) in s.log && LatestClose(s.log, id).Some?
    ensures Bound(h, s, id, c)
  {
    hide GoodHash, DeckOf, OnceEach;
    LatestIs(s.log, id);
    var k: nat :| k < |s.log| && s.log[k].HandClose? && s.log[k].handId == id && s.log[k].result == LatestClose(s.log, id).value;
    assert CloseRight(h, s.log, k);
    assert forall e :: e in s.log[..k] ==> e in s.log;
    SameOpening(s.log, id, c, s.log[k].result.commitment);
    LiveNotClosed(h, s, id);
  }

  lemma LiveNotClosed(h: Hash, s: State, id: HandId)
    requires Inv(h, s)
    ensures id in s.live ==> LatestClose(s.log, id).None?
  {
  }

  predicate Opened(log: seq<HistoryEvent>, id: HandId) {
    exists j :: 0 <= j < |log| && log[j].handId == id && log[j].HandOpen?
  }

  /**
   * After any calls to a new service, a hand is in exactly one of three stages: never opened, live, or closed. An id
   * is refused to a new hand exactly when it has been opened before.
   */
  lemma StagesOfHand(h: Hash, es: seq<Event>, id: HandId, seed: nat, nonce: nat)
    requires GoodHash(h)
    ensures var s := Run(h, EMPTY, es);
      && (Opened(s.log, id) <==> id in s.live || LatestClose(s.log, id).Some?)
      && !(id in s.live && LatestClose(s.log, id).Some?)
      && (Open(h, s, id, seed, nonce).Ok? <==> !Opened(s.log, id))
  {
    hide GoodHash, DeckOf, OnceEach, LatestClose, CloseRight;
    EmptyInv(h);
    RunKeeps(h, EMPTY, es);
    var s := Run(h, EMPTY, es);
    if id in s.live {
      assert LiveRight(h, s, id);
    } else if LatestClose(s.log, id).Some? {
      var j :| 0 <= j < |s.log| && s.log[j].HandClose? && s.log[j].handId == id;
      ClosedWasOpened(h, s, j);
    }
  }

  lemma ClosedWasOpened(h: Hash, s: State, j: nat)
    requires Inv(h, s) && j < |s.log| && s.log[j].HandClose?
    ensures Opened(s.log, s.log[j].handId)
  {
    hide DeckOf, OnceEach, LatestClose;
    assert CloseRight(h, s.log, j);
    var r := s.log[j].result;
    var i :| 0 <= i < j && s.log[..j][i] == HandOpen(r.handId, r.commitment);
    assert s.log[i].handId == s.log[j].handId;
  }

  lemma LiveBound(h: Hash, s: State, id: HandId, c: nat)
    requires Inv(h, s) && HandOpen(id, c) in s.log && LatestClose(s.log, id).None?
    ensures Bound(h, s, id, c)
  {
    hide GoodHash, DeckOf, LatestClose;
    var i :| 0 <= i < |s.log| && s.log[i] == HandOpen(id, c);
    assert s.log[i].handId in s.live;
    assert LiveRight(h, s, id);
    SameOpening(s.log, id, c, s.live[id].commitment);
  }

  /**
   * What one opening commits to, for ever: whatever happens next, the public commitment of the hand stays the
   * same, the hand is not both live and closed, and a close reveals a seed that hashes to the commitment and
   * generates the deck that was drawn from.
   */
  lemma CommitmentBinds(h: Hash, s: State, es: seq<Event>, id: HandId, c: nat)
    requires Inv(h, s) && HandOpen(id, c) in s.log
    ensures Bound(h, Run(h, s, es), id, c)
  {
    hide GoodHash, Run, DeckOf, LiveRight, CloseRight, Bound;
    RunKeeps(h, s, es);
    var later := Run(h, s, es);
    var i :| 0 <= i < |s.log| && s.log[i] == HandOpen(id, c);
    assert later.log[i] == HandOpen(id, c);
    if LatestClose(later.log, id).Some? {
      ClosedBound(h, later, id, c);
    } else {
      LiveBound(h, later, id, c);
    }
  }

  /** Closing never fails for a live hand, and closing again, at any later time, gives the same result and records nothing. */
  lemma CloseIsFinal(h: Hash, s: State, id: HandId, extra: nat, es: seq<Event>, other: nat)
    requires Inv(h, s) && (id in s.live || LatestClose(s.log, id).Some?)
    ensures Close(h, s, id, extra).Ok?
    ensures var (closed, r) := Close(h, s, id, extra).value; var later := Run(h, closed, es);
      Close(h, later, id, other) == Ok((later, r))
  {
    hide GoodHash, Run, Verifies, LiveRight, CloseRight;
    if LatestClose(s.log, id).None? {
      AlwaysVerifies(h, s, id);
    }
    CloseKeeps(h, s, id, extra);
    var (closed, r) := Close(h, s, id, extra).value;
    RunKeeps(h, closed, es);
    LatestIs(closed.log, id);
    assert LatestClose(closed.log, id) == Some(r) by {
      if LatestClose(s.log, id).None? { CloseAppended(s.log, HandClose(id, r), id); }
    }
    var k: nat :| k < |closed.log| && closed.log[k].HandClose? && closed.log[k].handId == id && closed.log[k].result == r;
    var later := Run(h, closed, es);
    assert later.log[k] == closed.log[k];
    CloseIs(h, later, k);
  }

  // ---------------------------------------------------------------- a hand's record

  /** The draws that calls ask of a hand, in order. */
  function Asked(es: seq<Event>, id: HandId): seq<Kind> {
    if es == [] then [] else (if es[0].DrawCard? && es[0].id == id then [es[0].kind] else []) + Asked(es[1..], id)
  }

  ghost predicate NoClose(es: seq<Event>, id: HandId) {
    forall i :: 0 <= i < |es| ==> !(es[i].CloseHand? && es[i].id == id)
  }

  /** The draws answer what was asked, as far as the deck goes. */
  predicate Answers(draws: seq<DrawnCard>, asked: seq<Kind>) {
    && |draws| == Min(|asked|, DECK_SIZE)
    && forall i :: 0 <= i < |draws| ==> draws[i].kind == asked[i]
  }

  predicate SameOpened(a: LiveHand, b: LiveHand) {
    b == a.(cursor := b.cursor, draws := b.draws)
  }

  lemma DrawAnswers(h: Hash, s: State, id: HandId, kind: Kind, asked: seq<Kind>)
    requires Inv(h, s) && id in s.live && Answers(s.live[id].draws, asked)
    ensures var next := Step(h, s, DrawCard(id, kind));
      && id in next.live && SameOpened(s.live[id], next.live[id]) && Answers(next.live[id].draws, asked + [kind])
  {
    hide GoodHash, DeckOf, LatestClose, CloseRight, OnceEach, LiveRight;
    NextDraw(h, s, id);
  }

  /** A call about another hand, or an opening, leaves a live hand alone. */
  lemma OtherLeaves(h: Hash, s: State, e: Event, id: HandId)
    requires Inv(h, s) && id in s.live && (e.OpenHand? || e.id != id)
    ensures var next := Step(h, s, e); id in next.live && next.live[id] == s.live[id]
  {
    hide GoodHash, DeckOf, LatestClose, CloseRight, OnceEach, LiveRight, Verifies;
  }

  /** One call other than a close of the hand: it stays live, and draws at most the one card asked for. */
  lemma StepAnswers(h: Hash, s: State, e: Event, id: HandId, asked: seq<Kind>)
    requires Inv(h, s) && id in s.live && Answers(s.live[id].draws, asked) && NoClose([e], id)
    ensures var next := Step(h, s, e);
      id in next.live && SameOpened(s.live[id], next.live[id]) && Answers(next.live[id].draws, asked + Asked([e], id))
  {
    hide GoodHash, LiveRight, CloseRight, OnceEach, Step, Answers;
    assert Asked([e][1..], id) == [] && [e][0] == e;
    if e.DrawCard? && e.id == id {
      DrawAnswers(h, s, id, e.kind, asked);
      assert Asked([e], id) == [e.kind];
    } else {
      OtherLeaves(h, s, e, id);
      assert asked + Asked([e], id) == asked;
    }
  }

  lemma {:induction false} RunAnswers(h: Hash, s: State, es: seq<Event>, id: HandId, asked: seq<Kind>)
    requires Inv(h, s) && id in s.live && Answers(s.live[id].draws, asked) && NoClose(es, id)
    ensures var end := Run(h, s, es);
      id in end.live && SameOpened(s.live[id], end.live[id]) && Answers(end.live[id].draws, asked + Asked(es, id))
    decreases |es|
  {
    hide GoodHash, LiveRight, CloseRight, OnceEach, Step, Answers;
    if es == [] {
      assert asked + [] == asked;
    } else {
      StepKeeps(h, s, es[0]);
      StepAnswers(h, s, es[0], id, asked);
      RunAnswers(h, Step(h, s, es[0]), es[1..], id, asked + Asked([es[0]], id));
      AskedSplit(es, id);
      assert asked + Asked([es[0]], id) + Asked(es[1..], id) == asked + Asked(es, id);
    }
  }

  lemma AskedSplit(es: seq<Event>, id: HandId)
    requires es != []
    ensures Asked(es, id) == Asked([es[0]], id) + Asked(es[1..], id)
  {
    assert [es[0]][1..] == [] && Asked([], id) == [];
  }

  lemma BurnedLast(draws: seq<DrawnCard>)
    ensures draws == [] ==> Burned(draws) == []
    ensures draws != [] ==>
      var last := |draws| - 1;
      Burned(draws) == if draws[last].kind.Burn? then Burned(draws[..last]) + [draws[last].card] else Burned(draws[..last])
  {
  }

  /** Positions in rising order of exactly the draws that were burns. */
  ghost predicate BurnPlaces(draws: seq<DrawnCard>, at: seq<nat>) {
    && (forall i, j :: 0 <= i < j < |at| ==> at[i] < at[j])
    && forall k: nat :: k in at <==> k < |draws| && draws[k].kind.Burn?
  }

  lemma PlacesExtend(draws: seq<DrawnCard>, d: DrawnCard, at: seq<nat>)
    requires BurnPlaces(draws, at)
    ensures BurnPlaces(draws + [d], if d.kind.Burn? then at + [|draws|] else at)
  {
    forall i | 0 <= i < |at|
      ensures at[i] < |draws|
    {
      assert at[i] in at;
    }
  }

  /** The burned cards are the cards of the draws that were burns, in order. */
  lemma {:induction false} BurnedAre(draws: seq<DrawnCard>) returns (at: seq<nat>)
    ensures BurnPlaces(draws, at) && |at| == |Burned(draws)|
    ensures forall i :: 0 <= i < |at| ==> at[i] < |draws| && Burned(draws)[i] == draws[at[i]].card
  {
    hide Burned, BurnPlaces;
    BurnedLast(draws);
    if draws == [] {
      at := [];
      NoPlaces();
    } else {
      var last := |draws| - 1;
      var before := BurnedAre(draws[..last]);
      PlacesExtend(draws[..last], draws[last], before);
      assert draws[..last] + [draws[last]] == draws;
      at := if draws[last].kind.Burn? then before + [last] else before;
    }
  }

  lemma NoPlaces()
    ensures BurnPlaces([], [])
  {
  }

  /**
   * A hand's record. From the opening under a seed and nonce, through any calls that do not close the hand, to the close:
   * the i-th draw asked for has been answered with the i-th card of the deck of that seed, as a card or a burn as asked,
   * until the 52 run out; the public view counts the draws and shows no result before the close; the close records the
   * draws, the seed and nonce, the deck and what the caller adds, and from then on the public view shows just that.
   */
  lemma HandOnRecord(h: Hash, s: State, id: HandId, seed: nat, nonce: nat, es: seq<Event>, extra: nat)
    requires Inv(h, s) && Open(h, s, id, seed, nonce).Ok? && NoClose(es, id)
    ensures GoodHash(h) && Close(h, Run(h, Open(h, s, id, seed, nonce).value, es), id, extra).Ok?
    ensures var end := Run(h, Open(h, s, id, seed, nonce).value, es); var (closed, r) := Close(h, end, id, extra).value;
      var c := h.commit(seed, nonce);
      && r == HandResult(id, c, seed, nonce, DeckOf(h, seed, nonce), r.draws, Burned(r.draws), extra)
      && Answers(r.draws, Asked(es, id)) && DrawsFollow(r.draws, DeckOf(h, seed, nonce))
      && Peek(end, id) == Ok(Public(c, false, |r.draws|, None))
      && Peek(closed, id) == Ok(Public(c, true, |r.draws|, Some(r)))
  {
    hide GoodHash, DeckOf, Run, LatestClose, CloseRight, OnceEach, Verifies, Answers, DrawsFollow;
    OpenKeeps(h, s, id, seed, nonce);
    var begun := Open(h, s, id, seed, nonce).value;
    NoneAsked(begun.live[id].draws);
    RunAnswers(h, begun, es, id, []);
    RunKeeps(h, begun, es);
    assert [] + Asked(es, id) == Asked(es, id);
    var end := Run(h, begun, es);
    AlwaysVerifies(h, end, id);
    assert LiveRight(h, end, id);
    CloseAppended(end.log, HandClose(id, ResultOf(id, end.live[id], extra)), id);
  }

  lemma NoneAsked(draws: seq<DrawnCard>)
    requires draws == []
    ensures Answers(draws, [])
  {
  }

  // ---------------------------------------------------------------- the service

  class AppendOnlyHistory {
    var log: seq<HistoryEvent>

    constructor ()
      ensures log == []
    {
      log := [];
    }

    method Append(e: HistoryEvent)
      modifies this
      ensures log == old(log) + [e]
    {
      log := log + [e];
    }
  }

  class DealRngService {
    const hash: Hash
    const history: AppendOnlyHistory
    var live: map<HandId, LiveHand>

    ghost function View(): State
      reads this, history
    {
      State(live, history.log)
    }

    ghost predicate Valid()
      reads this, history
    {
      Inv(hash, View())
    }

    constructor (hash: Hash, history: AppendOnlyHistory)
      requires GoodHash(hash) && history.log == []
      ensures Valid() && View() == EMPTY && this.history == history && this.hash == hash
    {
      this.hash, this.history, live := hash, history, map[];
      new;
      EmptyInv(hash);
    }

    /** Open a hand under the id given, or else a random one; that id, the seed and the nonce are the random bytes. */
    method Open(handId: Option<HandId>, randomId: HandId, seed: nat, nonce: nat) returns (r: Reply<(HandId, nat)>)
      requires Valid()
      modifies this, history
      ensures Valid() && View() == Step(hash, old(View()), OpenHand(handId.GetOr(randomId), seed, nonce))
      ensures var id := handId.GetOr(randomId); r.Ok? <==> id !in old(live) && LatestClose(old(history.log), id).None?
      ensures r == if r.Ok? then Ok((handId.GetOr(randomId), hash.commit(seed, nonce))) else Err(AlreadyUsed)
    {
      var id := handId.GetOr(randomId);
      hide Inv, GoodHash, LatestClose, DeckOf;
      StepKeeps(hash, View(), OpenHand(id, seed, nonce));
      HashGood();
      if id in live || LatestClose(history.log, id).Some? {
        return Err(AlreadyUsed);
      }
      var commitment := hash.commit(seed, nonce);
      var deck := MakeDeck(hash, seed, nonce);
      live := live[id := LiveHand(commitment, seed, nonce, deck, 0, [])];
      history.Append(HandOpen(id, commitment));
      return Ok((id, commitment));
    }

    lemma HashGood()
      requires Valid()
      ensures GoodHash(hash)
    {
    }

    /** Draw the next card; the card drawn is the deck's card at the cursor. */
    method Draw(id: HandId, kind: Kind) returns (r: Reply<DrawnCard>)
      requires Valid()
      modifies this
      ensures Valid() && View() == Step(hash, old(View()), DrawCard(id, kind))
      ensures r.Ok? <==> id in old(live) && |old(live)[id].draws| < DECK_SIZE
      ensures r.Err? ==> r.error == if id in old(live) then DeckExhausted else NotLive
      ensures r.Ok? ==> var n := |old(live)[id].draws|; r.value == DrawnCard(n, kind, DeckOf(hash, old(live)[id].seed, old(live)[id].nonce)[n])
    {
      hide Inv, GoodHash, LatestClose, DeckOf;
      StepKeeps(hash, View(), DrawCard(id, kind));
      if id !in live {
        return Err(NotLive);
      }
      NextDraw(hash, View(), id);
      var hand := live[id];
      if hand.cursor >= |hand.deck| {
        return Err(DeckExhausted);
      }
      var drawn := DrawnCard(hand.cursor, kind, hand.deck[hand.cursor]);
      live := live[id := hand.(cursor := hand.cursor + 1, draws := hand.draws + [drawn])];
      return Ok(drawn);
    }

    method PeekPublic(id: HandId) returns (r: Reply<Public>)
      requires Valid()
      ensures r == Peek(View(), id)
    {
      var closed := LatestClose(history.log, id);
      if closed.Some? {
        return Ok(Public(closed.value.commitment, true, |closed.value.draws|, closed));
      }
      if id !in live {
        return Err(NotLive);
      }
      var hand := live[id];
      return Ok(Public(hand.commitment, false, |hand.draws|, None));
    }

    /** Close a hand, or answer again for one already closed. It fails only for an id that was never opened. */
    method Close(id: HandId, extra: nat) returns (r: Reply<HandResult>)
      requires Valid()
      modifies this, history
      ensures Valid() && View() == Step(hash, old(View()), CloseHand(id, extra))
      ensures r.Ok? <==> id in old(live) || LatestClose(old(history.log), id).Some?
      ensures r.Ok? ==> LatestClose(history.log, id) == Some(r.value)
      ensures r.Err? ==> r.error == NotLive
    {
      hide Inv, GoodHash, LatestClose, DeckOf, DeckOrder;
      ghost var before := View();
      StepKeeps(hash, before, CloseHand(id, extra));
      HashGood();
      var existing := LatestClose(history.log, id);
      if existing.Some? {
        return Ok(existing.value);
      }
      if id !in live {
        return Err(NotLive);
      }
      AlwaysVerifies(hash, before, id);
      var hand := live[id];
      var verified := VerifyShuffle(hash, hand.seed, hand.nonce, hand.commitment, hand.deck);
      if !verified {
        return Err(VerificationFailed);
      }
      var result := ResultOf(id, hand, extra);
      history.Append(HandClose(id, result));
      live := live - {id};
      CloseAppended(before.log, HandClose(id, result), id);
      return Ok(result);
    }
  }
}
