# Verified model of the poker server

A Dafny model of a server-authoritative no-limit hold'em platform, with proofs. It covers the hand as a state
machine, the pots and the evaluator underneath it, and the arithmetic and ledgers around it:

- **The hand.** `HandRules` states a hand as functions on the table's state: blinds, deal, betting, all-in
  skipping, streets, run-outs, uncalled bets, side pots, rake, splits. `Betting`, `HandInvariant`, `HandRuns` and
  `HandStart` carry the invariants over whole runs. `HandPositions` and `ActionRules` say in plain terms where a start
  puts everybody and what each action leads to. `PokerTable.Table` is the program's own object, whose methods
  update its fields, proved to compute exactly those functions.
- **Pots.** `Pots` and `ShowdownProofs`: conservation, exactness of side pots, who owns which pot, award bounds.
- **Evaluator.** `PokerHands` declares what beats what. `Evaluator`, `HandPacking` and `BestOfSeven` prove that the
  bit-packed values order hands exactly that way. `BestHandsWin` joins this to the showdown, and `FairHands`
  with `FairPayouts` states the whole of it from the deal to the payout.
- **Shuffle and deal service.** `Shuffle` (unbiased integers, Fisher-Yates as a bijection, commit and verify),
  `SealedHands` (what the table shows of a hand's seed, and when) and `DealRng` (an append-only open, draw and close
  protocol).
- **Chips.** `Ledger`, and `Escrow` with `TableOps` for requests that are split by awaits and interleave freely.
- **Timers.** `ActionTimer` with `TimedTables`: the automatic fold that brings every hand to an end.
- **Ids.** `TableDirectory`: which table an id names, for `Escrow` and `ActionTimer`.
- **Tournaments.** `TournamentTables`, `Payouts`, `TournamentRules` with `TournamentEngine`.

Check the whole project with `dafny verify dfyconfig.toml`.

## How to read it

Chips are whole numbers. A table has 2 to 9 seats, 0 < small blind <= big blind, a positive least buy-in, a rake
percentage in [0, 1] taken as a real number, and a cap. The hand value is an arbitrary function in the table
modules; `BestHandsWin` puts in the real one. The hash is arbitrary: a seed and nonce give a commitment and a
stream of 32-bit words, of which it is assumed only that rejection sampling does not reject for ever. Player ids
are opaque, and so are table ids, which may be used again: a table object is known by its number in the order of
creation, an id names the last one created under it, and a request or a timer keeps the object it has fetched. Random
bytes, decks and timers enter as parameters or events, so a statement about every run covers every choice of them.

In `payout` the commitments of a hand are stale, since the chips are already in the stacks; they count as chips
only while betting is on. The rake cap applies to each pot.

Where a comment in the source and the code disagree, the model follows the code:

- A comment says that an all-in which raises short does not reopen players who have acted
  (`packages/core/src/table.ts:366-368`). They keep their mark, yet they owe the difference and may raise like anyone
  else: `ShortAllIn` has a hand in which it happens and the exact condition.
- `minPlayers` is described as the smallest field that pays more than one place
  (`packages/tournament/src/types.ts:12-13`). It only gates the start; that field is three players
  (`SmallestPayingField`).

Six statements that one might expect are not true of the code in general. For each, the exact condition under which it
holds is proved, with an input at which it fails:

- "The return of an uncalled bet leaves every pot an owner": exactly when at most one folded contributor stands above
  all live ones (`ReturnClearsOrphans`, `TwoOverOrphan`). Every reachable showdown satisfies it (`CloseCovers`,
  `ShowdownPaid`).
- "A better place in a tournament never gets fewer chips": exactly when the chips left for the last paid place are no
  more than the prize above it (`PrizesFallIff`, `LastMayBeatSecond`). A pool large enough for the number of places
  ensures it (`AmplePoolSuffices`).
- "Who has acted may not raise over a short all-in": exactly when their chips do not reach a full raise
  (`ActedMayRaise`, `BetCallShortAllIn`).
- "Creating a table loses no chips": exactly when its id is new, or the table it replaces holds none and would turn
  down every unfinished sit and add-on that has fetched it (`ReopeningLosesNothingIff`, `SeatedIsLost`,
  `SeatUnderWayIsLost`). The chips stay accounted for, on a table that nobody can leave (`EscrowConserves`,
  `NeverComesBack`).
- "Every hand at a table of the map has its timer, whatever tables are created": exactly when no table is replaced in a
  hand that an unfinished act request has fetched (`ReopeningHarmlessIff`, `StrayActStops`, `HandCanLoseItsTimer`).
- "Rebalancing never adds a table": exactly when there was one; from none, an empty final table is made
  (`TableCountFalls`).

## Model

| member | source | states |
|---|---|---|
| HandStart.WholeHand | packages/core/src/table.ts:134-188 | from the deal through any attempted moves, a hand is either waiting for an action or paid out; chips behind, in the pot and raked are the chips the players brought; the number of accepted actions and of cards drawn is bounded |
| HandStart.HolesFixed | packages/core/src/table.ts:155-162 | with m players dealt in, the k-th after the button holds deck cards k and m + k, at the deal and after any run of moves |
| HandRuns.RunSafe | packages/core/src/table.ts:176-188 | over every run of accepted and refused actions the invariant, the deal and the chip total are kept |
| HandRuns.RunEnds | packages/core/src/table.ts:370-414 | every accepted action uses up potential, so every hand ends |
| HandRuns.ActKeeps | packages/core/src/table.ts:176-188 | one accepted action leads to another state that waits for an action or to payout, with cards and chips kept |
| HandRuns.ActAcceptedIff | packages/core/src/table.ts:176-222 | progress, both ways: an action is accepted exactly when it is the actor's, is on offer and its amount is inside the offered bounds |
| HandRuns.ActSpendsPotential | packages/core/src/table.ts:370-414 | an accepted action strictly lowers the measure (streets left, chips behind, live players, players owing) |
| HandRuns.MinRaiseKept | packages/core/src/table.ts:295-344 | within a street neither the bet nor the least raise falls; the least raise is at least the big blind; no live street commitment exceeds the bet |
| HandRuns.BettingCannotMoveCards | packages/core/src/table.ts:416-479 | two runs of one hand, however played, show the same hole cards and boards of which one begins the other; at most 2m + 8 cards are drawn |
| ActionRules.ActLeads | packages/core/src/table.ts:176-464 | what every accepted action leads to: exactly its chips go in, the bet and the least raise follow, the others are asked again exactly when it reopens the betting; then one player left is paid, or the turn goes to the nearest able player while somebody has yet to answer, or the next street begins with the first able player after the button, or the hand is run out and paid |
| ActionRules.ActPermittedIff | packages/core/src/table.ts:176-222 | an action is accepted exactly when it is the turn of the player it names and no-limit rules permit it, with every amount bound in chips: a bet at least the big blind, a raise at least the last one, unless all-in |
| ActionRules.OffersInChips | packages/core/src/table.ts:190-222 | an action is on offer exactly when some amount of it is permitted; a bet and a raise show the least and the most permitted, a call and an all-in what they cost |
| ActionRules.ActRefusedWith | packages/core/src/table.ts:176-188 | a refused action answers, in this order: not seated, not their turn, an action that no amount would make legal, a bad amount |
| ActionRules.RaiseSizes | packages/core/src/table.ts:295-345 | while the street goes on: an unchanged bet leaves the least raise; a raise or an all-in above the bet makes it the larger of its old value and the increment, and asks the others again exactly when the increment reaches the old value; a bet makes it the larger of the big blind and the increment |
| FairHands.HandIsFair | packages/core/src/table.ts:134-559 | from the deal of any deck without repeats through any moves: until payout each player has what they sat down with less what they put in; after a showdown every pot is owned, each keeps nothing without a flop where that is the rule and otherwise the most its percentage and cap allow, and pays all the rest in even shares, in seat order with the odd chips first, to exactly the eligible players whose best five of seven nobody eligible beats; awards and rake add up to the commitments; nobody wins more than was matched; each stack is what it was, less the commitment, plus the awards; if one player is left, that player alone is paid, the pot less its rake |
| FairHands.ShuffledHandIsFair | packages/deal/src/index.ts:59-80 | the same on every deck that the shuffle makes from a seed and nonce |
| FairHands.RefundContribs | packages/core/src/table.ts:484-495 | giving the uncalled bet back leaves the contributions in the seats exactly as the pots are built from |
| FairPayouts.RakeIsKept | packages/core/src/table.ts:514-518 | what a pot keeps: nothing without a flop where that is the rule, otherwise the most whole chips within the percentage and the cap |
| FairPayouts.SplitPays | packages/core/src/table.ts:512-525 | a pot pays all that it does not keep, in even shares, to its winners in seat order, the odd chips to the winner in the lowest seat |
| FairPayouts.EligibleInOrder | packages/core/src/pots.ts:47-51 | whoever may win a pot is listed in seat order |
| SealedHands.RevealOpensCommitment | packages/core/src/table.ts:224-239 | from any moment of a hand to any later one before the next: the commitment shown stays, no seed is shown while the hand runs, a seed and nonce are shown exactly once it has been cleaned up, they open the commitment, and every hole card, burn and board card was at its fixed position in the deck they determine |
| SealedHands.HandUnderSeal | packages/core/src/table.ts:134-174 | a hand begun under a seed and nonce shows their commitment, deals the k-th of m players cards k and m + k of their deck for as long as it runs, and shows them once it has been cleaned up |
| SealedHands.PerformKeeps | packages/core/src/table.ts:66-188 | every command, accepted or refused, keeps the seal on show that of the deck on the table |
| SealedHands.SealedTable.StartHand | packages/core/src/table.ts:134-174 | a started hand opens the deal of its seed and nonce; a refused start opens none |
| SealedHands.SealedTable.Act | packages/core/src/table.ts:176-188 | an action leaves the deal alone |
| SealedHands.SealedTable.FinalizeHandIfComplete | packages/core/src/table.ts:127-132 | the clean-up leaves the deal in place, so that its seed comes on show |
| SealedHands.SealedTable.PublicDeal | packages/core/src/table.ts:238-239 | the public view of the deal: the commitment, and the seed and nonce only between hands |
| BestHandsWin.RunFromDeck | packages/core/src/table.ts:134-173 | from the start of a hand, through any moves, every hand held comes from the top of the deck, two positions a player |
| BestHandsWin.PotGoesToBestHands | packages/core/src/table.ts:498-513 | with the program's evaluator and a deck of different cards, the winners of a pot are exactly the eligible players whose best five of seven nobody eligible beats under the declared poker order |
| HandStart.StartHandSafe | packages/core/src/table.ts:134-173 | a started hand waits for an action or is already paid out, with every chip accounted for |
| HandPositions.StartPositions | packages/core/src/table.ts:134-174 | the button moves to the nearest player with chips after the old one, never staying, and first to the lowest occupied seat; the next two players post the small and the big blind, or the button and the other of two, each the blind or all they have; everyone with chips has two cards; the bet and the least raise are the big blind; the first to act is the nearest able player after the big blind |
| HandPositions.StartAcceptedIff | packages/core/src/table.ts:134-143 | a hand starts exactly between hands and with two players who have chips, or else with which error it is refused |
| HandStart.StartsBetting | packages/core/src/table.ts:134-174 | with two players who have more than the big blind a hand is dealt and waits for an action |
| HandStart.ButtonLive | packages/core/src/table.ts:628-641 | the button always lands on a seat that is dealt in |
| HandStart.DealOrderAll | packages/core/src/table.ts:643-652 | the deal order names each live seat exactly once |
| HandStart.DealRoundIs | packages/core/src/table.ts:156-162 | a round of the deal gives the k-th seat in order the k-th card and touches no other seat |
| HandStart.DealtRound | packages/core/src/table.ts:580-601 | after blinds and deal: all-in means no chips, commitments are level, only blinds are in, and the least raise is the big blind |
| HandStart.DealtTurn | packages/core/src/table.ts:603-609 | the first to act preflop is the first able seat after the big blind, those owing come first, and a blind keeps its option for last |
| HandStart.OpenedSettled | packages/core/src/table.ts:134-173 | the hand as dealt meets the betting invariant |
| HandRules.FreshReady | packages/core/src/table.ts:141-149 | the players dealt in are exactly those who have chips and are not sitting out |
| Betting.LegalIsOffered | packages/core/src/table.ts:190-222 | the list of legal actions holds exactly the offers, each with its bounds |
| Betting.ApplyActor | packages/core/src/table.ts:275-357 | what an accepted action does to the actor: chips only move forward, all-in means none left, whoever raises stands at the new bet |
| Betting.ApplyRaises | packages/core/src/table.ts:295-344 | only an all-in can raise short: the incomplete branch of a raise is never taken; calls, checks and folds leave bet and least raise alone |
| Betting.ApplyActs | packages/core/src/table.ts:275-364 | every accepted action is an abstract step: the actor settles up and others change only by being asked to act again |
| Betting.SaneKept | packages/core/src/table.ts:351-357 | all-in exactly when out of chips, and nobody live above the bet, after every step |
| Betting.LevelKept | packages/core/src/table.ts:351-357 | players able to act entered the street with equal hand commitments, and stay so after every step |
| Betting.TurnKept | packages/core/src/table.ts:370-397 | the turn passes to a player who owes action, and those owing still form a prefix of the seat order from there |
| Betting.CoveredKept | packages/core/src/table.ts:370-397 | after every step some live seat matches the bet, or only blinds have been folded under it |
| Betting.CloseCovers | packages/core/src/table.ts:399-414 | whenever betting closes, at most one folded commitment stands above all live ones |
| Betting.RaiseSizeKept | packages/core/src/table.ts:295-344 | the least raise stays at or above the big blind, and equals it while someone may still open |
| Betting.WorkFalls | packages/core/src/table.ts:370-414 | every step puts chips in, removes a player or leaves one fewer player owing |
| Betting.StacksAfter | packages/core/src/table.ts:351-357 | an action moves the actor's chips from stack to pot and nobody else's |
| ShortAllIn.ActedMayRaise | packages/core/src/table.ts:328-368 | after an all-in that raises short, whoever had acted keeps the mark, owes action all the same, and is offered a raise exactly when their chips reach the new bet plus the least raise |
| ShortAllIn.ReopenedRaiseAccepted | packages/core/src/table.ts:366-397 | when the turn next comes to a player who could act before it, wherever they sit and whatever the others have done on the street meanwhile, they have the chips they had, and the least full raise is accepted exactly when those reach it |
| ShortAllIn.BetCallShortAllIn | packages/core/src/table.ts:366-368 | a hand from a new table: three sit down and see the flop, bet 100, call, all-in for 150, and the first bettor, whose action is marked done, may raise |
| Seats.NextIs | packages/core/src/table.ts:619-626 | the next live seat is the nearest one clockwise, and there is none only if no seat qualifies |
| SeatLists.ClosedAgrees | packages/core/src/table.ts:399-414 | the program's clause-by-clause test for the end of a round says: one player left, nobody able to act, a lone actor with nothing to call, or all matched |
| HandInvariant.FreshRound | packages/core/src/table.ts:453-464 | a new street begins level, with everyone able to act owing and the first of them to act |
| HandInvariant.BeginInv | packages/core/src/table.ts:416-464 | when a round closes with two able players the next street starts in good order |
| HandInvariant.MidSettled | packages/core/src/table.ts:176-188 | the betting invariant holds again once an action is in the seats |
| HandInvariant.TurnInv | packages/core/src/table.ts:370-397 | passing the turn restores the full invariant |
| HandInvariant.DealNextCards | packages/core/src/table.ts:466-479 | flop, turn and river are fixed deck positions, with a burn before each |
| HandInvariant.RunOutCards | packages/core/src/table.ts:416-451 | an all-in run-out draws the same fixed positions |
| HandInvariant.ShowdownPaid | packages/core/src/table.ts:481-531 | every reachable showdown pays out with every pot owned and stacks equal to the old total less exactly the rake |
| HandInvariant.UncontestedPaid | packages/core/src/table.ts:533-559 | the last live player is paid, conserving chips up to the rake |
| HandInvariant.ShowdownReady | packages/core/src/table.ts:506-509 | at showdown the board has five cards and every paid player two, so no evaluation is refused |
| ShowdownProofs.StandsOnceOwned | packages/core/src/table.ts:481-505 | if at most one folded seat stands above the live ones, the return of the uncalled bet leaves every pot an owner |
| ShowdownProofs.ShowdownConserves | packages/core/src/table.ts:481-531 | stacks after showdown plus rake are stacks plus commitments before it |
| ShowdownProofs.UncontestedConserves | packages/core/src/table.ts:533-559 | the same for the uncontested ending |
| ShowdownProofs.WinnersAreBest | packages/core/src/table.ts:501-513 | the winners of a pot are exactly the eligible players with the highest value, and there is one |
| ShowdownProofs.PotPaid | packages/core/src/table.ts:514-525 | a pot is paid in full, less its own capped rake, to its winners only |
| ShowdownProofs.CreditAllPays | packages/core/src/table.ts:519-525 | each stack grows by exactly the shares named for it |
| ShowdownProofs.SharesGoToLive | packages/core/src/table.ts:498-526 | no folded or absent player is ever paid at showdown |
| ShowdownProofs.AwardBound | packages/core/src/table.ts:496-526 | no player wins more than the sum over contributors of the lesser of the two commitments |
| TableSession.SitKeeps | packages/core/src/table.ts:66-92 | sitting down adds exactly the buy-in and keeps players distinct |
| TableSession.AddOnKeeps | packages/core/src/table.ts:94-105 | an add-on adds exactly its amount |
| TableSession.CashOutKeeps | packages/core/src/table.ts:107-115 | leaving removes the player and exactly their stack |
| TableSession.SitSeats | packages/core/src/table.ts:66-92 | a new player gets the seat asked for, or else the lowest free one, with exactly the buy-in; nobody else is touched |
| TableSession.AddOnCredits | packages/core/src/table.ts:94-105 | an add-on goes to the player who asked, and changes nothing else |
| TableSession.CashOutFrees | packages/core/src/table.ts:107-115 | leaving frees that player's seat, and changes nothing else |
| TableSession.IdleClears | packages/core/src/table.ts:561-578 | after payout cards are mucked and every mark of the hand is wiped; stacks, seats and the button stay |
| TableSession.SitAcceptedIff | packages/core/src/table.ts:66-92 | a seat is given exactly between hands, to somebody new, for a buy-in in range, when the seat asked for, or else any seat, is free; a refusal names the first of these that fails |
| TableSession.AddOnAcceptedIff | packages/core/src/table.ts:94-105 | a seated player's add-on is accepted exactly between hands, when positive and within the limit, or else with which error it is refused |
| TableSession.CashOutAcceptedIff | packages/core/src/table.ts:107-115 | a seated player can leave exactly between hands, and takes the whole stack |
| TableSession.StrangersRefused | packages/core/src/table.ts:94-115 | who is not seated can neither add on nor leave |
| TableSession.IdleKeeps | packages/core/src/table.ts:127-132 | cleaning up after payout leaves an idle table with the same chips, and does nothing during a hand |
| TableSession.ExecKeeps | packages/core/src/table.ts:66-188 | every command, accepted or refused, keeps the table well formed; its chips change only by the chips brought, taken or raked |
| TableSession.SessionConserves | packages/core/src/table.ts:66-188 | the same over any sequence of commands |
| PokerTable.CreateTable | packages/core/src/table.ts:56-64 | a table of 2 to 9 seats is created empty and well formed; any other number is an error |
| PokerTable.Table.NextLiveSeat | packages/core/src/table.ts:619-626 | the clockwise loop finds the next live seat; it cannot fail while one exists |
| PokerTable.Table.BettingClosed | packages/core/src/table.ts:399-414 | the list tests compute whether the round is over |
| PokerTable.Table.Put | packages/core/src/table.ts:351-357 | chips move from stack to both commitments, all-in when none are left; an amount below zero or above the stack is refused |
| PokerTable.Table.Take | packages/deal/src/index.ts:71-75 | the next card of the hand's deck, the cursor moving by one; past the end there is none |
| PokerTable.Table.DealFlop | packages/core/src/table.ts:466-469 | one burn and three board cards |
| PokerTable.Table.DealOne | packages/core/src/table.ts:471-479 | one burn and one board card |
| PokerTable.Table.ResetActionExcept | packages/core/src/table.ts:359-364 | everyone else still able to act is asked again |
| PokerTable.Table.ApplyAction | packages/core/src/table.ts:275-349 | the switch over actions: refused with nothing changed, or the rules' new seats, bet and least raise |
| PokerTable.Table.ApplyBet | packages/core/src/table.ts:295-308 | bounds checked first; then chips, bet, least raise and reopening |
| PokerTable.Table.ApplyRaise | packages/core/src/table.ts:309-327 | raise-to amounts: bounds, chips, bet, full or short |
| PokerTable.Table.ApplyAllIn | packages/core/src/table.ts:328-345 | an all-in below, at or above the bet, full or short |
| PokerTable.Table.ReturnUncalledBet | packages/core/src/table.ts:484-495 | the uncalled part goes back to one stack and out of the contributions |
| PokerTable.Table.ScorePot | packages/core/src/table.ts:501-513 | scoring the contenders and keeping those with the best value |
| PokerTable.Table.PayPot | packages/core/src/table.ts:500-526 | one pot: best hands, capped rake, split, credit, award list |
| PokerTable.Table.PayPots | packages/core/src/table.ts:500-528 | all pots in order, and the rake they add up to |
| PokerTable.Table.ShowdownHand | packages/core/src/table.ts:481-531 | the whole showdown, in place, is the rules' showdown |
| PokerTable.Table.PayUncontested | packages/core/src/table.ts:536-556 | the whole pot, less rake, to the last player |
| PokerTable.Table.AwardUncontested | packages/core/src/table.ts:533-559 | the uncontested ending, in place, is the rules' one |
| PokerTable.Table.SkipAllIns | packages/core/src/table.ts:384-396 | the guarded loop stops at the next able player, or finds the round closed |
| PokerTable.Table.SkipAllInsAndMaybeClose | packages/core/src/table.ts:384-397 | after skipping, either the next able player is to act or the next street has begun |
| PokerTable.Table.NextStreetOrShowdown | packages/core/src/table.ts:416-451 | from a closed round to the next street, a run-out or showdown |
| PokerTable.Table.DealNext | packages/core/src/table.ts:418-446 | the next street's cards |
| PokerTable.Table.ResetStreet | packages/core/src/table.ts:455-458 | street commitments and acted marks are cleared |
| PokerTable.Table.BeginStreet | packages/core/src/table.ts:453-464 | street marks reset, bet zero, first able player after the button to act |
| PokerTable.Table.AdvanceAfterAction | packages/core/src/table.ts:370-382 | uncontested win, next street, or next player |
| PokerTable.Table.PlayAction | packages/core/src/table.ts:183-187 | applying an action, marking it and moving on |
| PokerTable.Table.Act | packages/core/src/table.ts:176-188 | an action either has the rules' result or is refused with its error and changes nothing at all |
| PokerTable.Table.ClearSeats | packages/core/src/table.ts:570-577 | every seat's hand marks are wiped, stacks kept |
| PokerTable.Table.FinishHand | packages/core/src/table.ts:561-578 | betting over, hand marks wiped, stacks kept |
| PokerTable.Table.FinalizeHandIfComplete | packages/core/src/table.ts:127-132 | cleans up exactly when a hand has been paid out |
| PokerTable.Table.AssertIdle | packages/core/src/table.ts:687-690 | cleans up, then refuses if a hand is running |
| PokerTable.Table.Sit | packages/core/src/table.ts:66-92 | seat taken, or the error and only the clean-up |
| PokerTable.Table.AddOn | packages/core/src/table.ts:94-105 | stack raised, or the error and only the clean-up |
| PokerTable.Table.CashOut | packages/core/src/table.ts:107-115 | seat emptied and its stack returned, or the error and only the clean-up |
| PokerTable.Table.ResetHand | packages/core/src/table.ts:146-153 | every seat's marks as at the start of a hand |
| PokerTable.Table.AdvanceButton | packages/core/src/table.ts:628-641 | first occupied seat, then clockwise to the next with chips |
| PokerTable.Table.PostBlind | packages/core/src/table.ts:595-601 | a blind is posted up to the stack, and does not count as acting |
| PokerTable.Table.PostBlinds | packages/core/src/table.ts:580-601 | heads-up the button posts the small blind, otherwise the next two seats post |
| PokerTable.Table.ListDealOrder | packages/core/src/table.ts:643-652 | the loop lists the live seats clockwise from the button |
| PokerTable.Table.DealOneRound | packages/core/src/table.ts:157-161 | one card to each seat in order |
| PokerTable.Table.DealHoleCards | packages/core/src/table.ts:155-162 | two rounds, one card each time |
| PokerTable.Table.FirstToActPreflop | packages/core/src/table.ts:603-609 | button heads-up, otherwise the seat after the big blind |
| PokerTable.Table.StartHand | packages/core/src/table.ts:134-173 | starting a hand has the rules' result, or the error and only the clean-up |
| Pots.ReturnUncalled | packages/core/src/pots.ts:18-29 | in place: the top commitment comes down to the runner-up and the difference is returned |
| Pots.ReturnConserves | packages/core/src/pots.ts:18-29 | what is returned leaves the middle, and nothing else does |
| Pots.ReturnLevelsTop | packages/core/src/pots.ts:18-29 | a second return has nothing to return |
| Pots.ReturnClearsOrphans | packages/core/src/pots.ts:18-29 | exactly when the return leaves every pot an owner: at most one folded contributor stood above all live ones |
| Pots.TwoOverOrphan | packages/core/src/pots.ts:18-29 | an input at which it does not: two folded players at 10 and a live one at 5 |
| Pots.BuildPots | packages/core/src/pots.ts:35-59 | the peeling loop computes one pot for each level of commitment |
| Pots.PeelLevel | packages/core/src/pots.ts:42-51 | one round of peeling lowers every remaining commitment by the least of them |
| Pots.PotsTotal | packages/core/src/pots.ts:35-59 | the pots add up to the committed chips |
| Pots.OnePotEach | packages/core/src/pots.ts:35-59 | one pot for each distinct commitment: between two neighbouring commitments it holds what everybody put in, and the live players who reach the upper one may win it |
| Pots.PotsNested | packages/core/src/pots.ts:35-59 | whoever may win a later pot may win every earlier one |
| Pots.EligibleAreLive | packages/core/src/pots.ts:47-51 | nobody folded is eligible |
| Pots.WinnableIsMatched | packages/core/src/pots.ts:35-59 | the pots a live contributor may win total exactly the sum over all contributors of the lesser of the two commitments |
| Pots.AllOwnedIff | packages/core/src/pots.ts:53-57 | every pot is owned exactly when no folded commitment tops all live ones |
| Pots.RakeIsMost | packages/core/src/pots.ts:61-70 | the rake is the most whole chips within the percentage and the cap |
| Pots.SplitTotal | packages/core/src/pots.ts:73-81 | a split hands out the whole amount, to winners only |
| Pots.SplitIsEven | packages/core/src/pots.ts:72-81 | all winners but the first get the same, and the first gets the odd chips, fewer than there are winners |
| HandPacking.Pack | packages/core/src/evaluator.ts:34-42 | shifting and or-ing the nibbles computes the base-16 number of category and kickers |
| HandPacking.PackedOrder | packages/core/src/evaluator.ts:34-42 | packing is an order embedding: category first, then kickers from the left |
| HandPacking.CategoryReadsBack | packages/core/src/evaluator.ts:26-28 | the category reads back from the value, which stays inside 24 bits |
| Evaluator.StraightHigh | packages/core/src/evaluator.ts:48-66 | the loop finds the first run of five, else the wheel |
| Evaluator.StraightFound | packages/core/src/evaluator.ts:48-66 | a straight's top is found exactly when the ranks form a straight, the wheel as five-high |
| Evaluator.CountRanks | packages/core/src/evaluator.ts:72-73 | the counting loop counts each rank |
| Evaluator.ListGroups | packages/core/src/evaluator.ts:75-78 | the downward loop lists the ranks present with their counts |
| Evaluator.ChooseKey | packages/core/src/evaluator.ts:84-104 | the chain of tests picks the category and kickers of the specification |
| Evaluator.EvaluateFive | packages/core/src/evaluator.ts:68-105 | five cards get their value, any other number is refused |
| Evaluator.KeyCategory | packages/core/src/evaluator.ts:84-104 | the category chosen is the one declared by counting ranks and suits |
| Evaluator.KeyTieBreak | packages/core/src/evaluator.ts:84-104 | the kickers chosen are the declared tie-break, as many as the category has |
| Evaluator.FiveValueOrder | packages/core/src/evaluator.ts:68-105 | for hands of five different cards, a lower value exactly when the hand loses by the declared poker order |
| Evaluator.FiveValuePermutes | packages/core/src/evaluator.ts:68-105 | the order of the cards does not matter |
| Evaluator.SuitsAreEqual | packages/core/src/evaluator.ts:68-105 | renaming suits one to one does not matter |
| BestOfSeven.BuildCombos | packages/core/src/evaluator.ts:107-118 | the nested loops enumerate each five of seven positions exactly once |
| BestOfSeven.EveryFivePicked | packages/core/src/evaluator.ts:107-129 | any five of the seven cards are picked by some combination, up to order |
| BestOfSeven.EvaluateSeven | packages/core/src/evaluator.ts:120-129 | the loop's maximum is attained by five of the cards and beaten by none |
| BestOfSeven.BestIsUnique | packages/core/src/evaluator.ts:120-129 | the best value is one, whatever the order of the seven cards |
| BestOfSeven.HoldemValueIsBest | packages/core/src/evaluator.ts:131-135 | two hole cards and a board are worth their best five |
| BestOfSeven.EvaluateHoldem | packages/core/src/evaluator.ts:131-135 | only two hole cards and five board cards are accepted |
| BestOfSeven.ValueOrderIsPoker | packages/core/src/evaluator.ts:120-140 | a lower seven-card value exactly when some five of the other cards beat every five of these |
| Cards.CardIdBijection | packages/core/src/cards.ts:45-52 | ids 0 to 51 and cards correspond one to one; other ids are refused |
| Cards.IdsAscend | packages/core/src/cards.ts:45-52 | ids go up rank by rank, and within a rank suit by suit |
| Cards.TextNames | packages/core/src/cards.ts:1-2 | deuce to nine by their digits, then T, J, Q, K, A; clubs, diamonds, hearts, spades by their initials |
| Cards.StandardDeck | packages/core/src/cards.ts:54-62 | the nested loops list all 52 cards in id order |
| Cards.TextRoundTrip | packages/core/src/cards.ts:20-39 | every card reads back from its text, and a text reads as a card exactly when it is that text up to blanks and case |
| Shuffle.StreamInt | packages/deal/src/index.ts:21-28 | the first word below the limit, reduced; earlier words were all at or above it |
| Shuffle.LimitIs | packages/deal/src/index.ts:22 | the limit is the largest multiple of n within 32 bits |
| Shuffle.NoBias | packages/deal/src/index.ts:21-28 | each residue has exactly limit / n accepted words |
| Shuffle.FisherYates | packages/deal/src/index.ts:30-40 | the in-place loop computes the shuffle its stream determines |
| Shuffle.ShuffledPermutes | packages/deal/src/index.ts:30-40 | for any indices the result is a permutation |
| Shuffle.ShuffledInjective | packages/deal/src/index.ts:30-40 | different index vectors give different arrangements |
| Shuffle.ShuffledSurjective | packages/deal/src/index.ts:30-40 | every arrangement comes from some index vector |
| Shuffle.ShufflePermutes | packages/deal/src/index.ts:30-40 | for any word stream the result is a permutation |
| Shuffle.LastPlaceFirst | packages/deal/src/index.ts:30-40 | the order of the draws: the last place is settled first, by the first accepted word, and what it takes is replaced by the entry that stood there |
| Shuffle.DeckIsComplete | packages/deal/src/index.ts:63-68 | a shuffled deck has each of the 52 ids once |
| Shuffle.DeckHasNoRepeats | packages/deal/src/index.ts:63-68 | no two cards of a shuffled deck are the same |
| Shuffle.MakeDeck | packages/deal/src/index.ts:63-68 | the shuffled ids, turned into cards |
| Shuffle.DeckFromWords | packages/deal/src/index.ts:63-68 | the last card of a deck has the id that the first accepted word of its seed and nonce leaves over 52 |
| Shuffle.VerifyShuffle | packages/deal/src/index.ts:46-56 | accepted exactly when the commitment matches and the deck starts with the 52 cards in the seed's order |
| Shuffle.HandDeal.constructor | packages/deal/src/index.ts:59-70 | an opened hand holds the deck its commitment fixes, undrawn |
| Shuffle.HandDeal.Take | packages/deal/src/index.ts:71-75 | cards come off in deck order; past the end there is none |
| Shuffle.HandDeal.Verify | packages/deal/src/index.ts:46-56 | verification of an opened hand always succeeds |
| Ledger.AcceptedIff | packages/ledger/src/chip-ledger.ts:9-27 | an entry is accepted exactly when it changes something, is no negative seed, and leaves nobody overdrawn |
| Ledger.RefusedWith | packages/ledger/src/chip-ledger.ts:9-27 | why an entry is refused: no amount, too few chips, or a seed that debits |
| Ledger.AppendKeeps | packages/ledger/src/chip-ledger.ts:9-31 | one balance moves by the amount and no other; ids stay consecutive and no balance was ever negative, whatever the reason of the entry |
| Ledger.SeedsAreWelcomes | services/game-server/src/ledger-port.ts:18-22 | chips are created only by seeding, 100,000 for each seeded user |
| Ledger.EnsureKeeps | services/game-server/src/ledger-port.ts:18-22 | ensuring an account seeds a new user once and is then without effect |
| Ledger.BalancesAreEntries | packages/ledger/src/chip-ledger.ts:29-31 | all balances together are the sum of all entries |
| Ledger.ChipLedger.Append | packages/ledger/src/chip-ledger.ts:9-27 | refused with its error and nothing changed, or one entry with the next id |
| Ledger.ChipLedger.Debit | packages/ledger/src/chip-ledger.ts:41-47 | a debit is accepted exactly when it is not zero and leaves nobody overdrawn, and a negative one is a credit |
| Ledger.ChipLedger.CashOut | packages/ledger/src/chip-ledger.ts:49-51 | a credit of a positive amount cannot be refused; of any other it is what the ledger makes of it |
| Ledger.ChipLedger.CosmeticPurchase | packages/ledger/src/chip-ledger.ts:61-64 | a purchase must be positive and within the balance |
| Ledger.ChipLedger.EnsureAccount | services/game-server/src/ledger-port.ts:18-22 | the seed-once rule |
| Escrow.StepKeeps | services/game-server/src/table-ops.ts:12-51 | one step of any request, with any others part-way through and whichever ids are used again, keeps all chips accounted for, no balance negative, nobody seeded twice and every table well formed |
| Escrow.EscrowConserves | services/game-server/src/table-ops.ts:12-43 | over every interleaving, balances, chips in flight, chips on the tables of the map, chips stranded on tables off it, and rake add up to 100,000 for each seeded account and what other services entered in the ledger |
| Escrow.OnlyPlayMovesWealth | services/game-server/src/table-ops.ts:12-43 | no step but playing a hand, a first seed or an entry of another service changes what a player owns in balance, flight and stacks: refusals refund exactly |
| Escrow.ResumeProgresses | services/game-server/src/table-ops.ts:12-43 | each resumption brings the waiting requests closer to done |
| Escrow.RefundKeeps | services/game-server/src/table-ops.ts:26-29 | a refused seat or add-on leaves the chips due back and the table only cleaned up |
| Escrow.CreditedKeeps | services/game-server/src/table-ops.ts:41 | a credit that is due is always accepted |
| Escrow.LeavingPays | services/game-server/src/table-ops.ts:34-43 | between hands whoever asks to leave is gone from the table at once and exactly their stack falls due to them; during a hand nothing changes |
| Escrow.NeverComesBack | services/game-server/src/table-ops.ts:20-40 | a table off the map stays off it, and over every run what it holds and the rake do not fall: nobody cashes chips out of it |
| Escrow.OpeningStrands | services/game-server/src/app.ts:177-187 | creating a table strands exactly what the table it replaces holds, nothing under a new id |
| Escrow.ReopeningLosesNothingIff | services/game-server/src/app.ts:177-187 | creating a table under an id in use strands nothing in any later run, exactly when the old table holds no chips and would turn down every unfinished sit and add-on that has fetched it |
| Escrow.SeatedIsLost | services/game-server/src/app.ts:177-187 | a reachable loss: one player sits down, and the same id is opened again |
| Escrow.SeatUnderWayIsLost | services/game-server/src/table-ops.ts:20-25 | a reachable loss at an empty table: a seat is paid for, the id is opened again, and the seat is then taken at the old table |
| TableDirectory.AddKeepsIds | services/game-server/src/app.ts:177-187 | creating a table under an id takes the table that had it off the map, and no other |
| TableOps.GameServer.OpenAccount | services/game-server/src/app.ts:61-64 | an account is ensured |
| TableOps.GameServer.OpenTable | services/game-server/src/app.ts:177-187 | a table is created under an id, new or in use |
| TableOps.GameServer.AskSit | services/game-server/src/table-ops.ts:20-22 | up to the first await: unknown ids are refused, the table object is fetched, the account is ensured |
| TableOps.GameServer.PayForSeat | services/game-server/src/table-ops.ts:23 | the debit, or the request ends with the ledger's error |
| TableOps.GameServer.TakeSeat | services/game-server/src/table-ops.ts:24-30 | the seat at the table fetched and its number, or that table's error and a refund falls due |
| TableOps.GameServer.AskAddOn | services/game-server/src/app.ts:207 | up to the first await: unknown ids are refused, the table object is fetched |
| TableOps.GameServer.PayForAddOn | services/game-server/src/app.ts:212 | the debit, or the request ends with the ledger's error |
| TableOps.GameServer.TopUp | services/game-server/src/app.ts:213-218 | the add-on at the table fetched, or that table's error and a refund falls due |
| TableOps.GameServer.AskLeave | services/game-server/src/table-ops.ts:38-41 | the stack leaves the table and falls due as a credit unless empty; an unknown table or one in a hand is an error |
| TableOps.GameServer.Credit | services/game-server/src/table-ops.ts:41 | a due credit is paid and cannot fail |
| TableOps.GameServer.StartTableHand | services/game-server/src/table-ops.ts:45-51 | a hand starts, only its rake leaving the table, or the table's error or the unknown table is answered |
| ActionTimer.OneTimer | services/game-server/src/app.ts:91-108 | a table of the map in a betting street has exactly one timer due and it names the player to act; any other table of the map has none |
| ActionTimer.StepKeeps | services/game-server/src/app.ts:91-108 | that invariant survives every route and every firing, and every creation of a table that strands no act request in a hand |
| ActionTimer.RunKeeps | services/game-server/src/app.ts:91-108 | so do whole runs, however often ids are used again |
| ActionTimer.OpenedKeepsIff | services/game-server/src/app.ts:177-187 | creating a table keeps the invariant exactly when it does not replace a table in a hand that an unfinished act request has fetched |
| ActionTimer.ReopeningHarmlessIff | services/game-server/src/app.ts:177-187 | over all later runs without another such creation every table of the map keeps its timer right, exactly when the old table was not in a hand that an unfinished act request had fetched |
| ActionTimer.StrayActStops | services/game-server/src/app.ts:245-257 | an act request that finishes on a table off the map, in a hand, clears the timer of the hand at the table its id now names, which no timer will end |
| ActionTimer.HandCanLoseItsTimer | services/game-server/src/app.ts:245-257 | it can come to that: a first hand, an act request that has fetched its table, and the table created again |
| ActionTimer.TimerLeftIff | services/game-server/src/app.ts:91-108 | after a table is replaced a timer is left over for it exactly when it was in a hand |
| ActionTimer.FoldAccepted | services/game-server/src/app.ts:98-102 | the fold a timer attempts is always accepted |
| ActionTimer.FoldShrinks | packages/core/src/table.ts:370-382 | an automatic fold ends the hand or leaves one player fewer |
| ActionTimer.TimersEndHand | services/game-server/src/app.ts:91-108 | timer firings alone end a hand at a table of the map in at most one fewer than its live players |
| TimedTables.TimedServer.ArmTimeout | services/game-server/src/app.ts:91-108 | the old timer is cleared and one is set exactly if somebody is to act |
| TimedTables.TimedServer.OpenTable | services/game-server/src/app.ts:177-187 | a table is created under an id, new or in use |
| TimedTables.TimedServer.Broadcast | services/game-server/src/app.ts:74-84 | the table the id names cleans up a finished hand |
| TimedTables.TimedServer.AskAct | services/game-server/src/app.ts:247 | up to the first await: unknown ids are refused, the table object is fetched |
| TimedTables.TimedServer.FinishAct | services/game-server/src/app.ts:255-257 | act on the table fetched, arm, broadcast its id; a refused action does none of it and answers with its error |
| TimedTables.TimedServer.StartRoute | services/game-server/src/app.ts:235-243 | start, arm, broadcast, or the error |
| TimedTables.TimedServer.OnTimer | services/game-server/src/app.ts:98-106 | fold at the timer's own table, broadcast its id, re-arm |
| TournamentTables.BuildTables | packages/tournament/src/balance.ts:4-15 | the round-robin loop deals the k-th of n tables every n-th player |
| TournamentTables.BuiltEven | packages/tournament/src/balance.ts:4-15 | tables are non-empty, within the limit, and differ in size by at most one |
| TournamentTables.BuiltSeatsAll | packages/tournament/src/balance.ts:4-15 | everyone is seated exactly once |
| TournamentTables.BuiltIds | packages/tournament/src/balance.ts:7-10 | no two tables share an id |
| TournamentTables.BuiltFewest | packages/tournament/src/balance.ts:4-15 | n tables are enough for the field exactly when there are no more: as few as hold everyone |
| TournamentTables.BuiltDeals | packages/tournament/src/balance.ts:11-14 | of n tables the i-th player sits at table i mod n, in seat i / n |
| TournamentTables.RebalanceTables | packages/tournament/src/balance.ts:21-41 | the nested loops compute the merged tables of the specification |
| TournamentTables.RebalancedKeeps | packages/tournament/src/balance.ts:21-41 | nobody is lost or seated twice |
| TournamentTables.RebalancedFits | packages/tournament/src/balance.ts:21-41 | no table passes the limit, and none is vacant while anyone is left |
| TournamentTables.RebalancedMerges | packages/tournament/src/balance.ts:26-29 | everyone who fits at one table ends at one table |
| TournamentTables.AllMerged | packages/tournament/src/balance.ts:30-41 | with more players than one table holds: if the players of all tables of one or two fit the free seats of the first larger table that has any, exactly the larger tables remain, in order, that one followed by all those players |
| TournamentTables.MergedTables | packages/tournament/src/balance.ts:30-41 | in general: larger tables keep their ids and their players in front, small ones their last players; while a larger table still has a free seat, no more small tables are left than larger ones have been filled; with no free seat to begin with nobody moves |
| TournamentTables.NothingToMerge | packages/tournament/src/balance.ts:26-32 | with more players than one table holds, and no small table or no larger one, nobody moves |
| TournamentTables.TableCountFalls | packages/tournament/src/balance.ts:21-41 | the number of tables does not grow exactly when there was one to begin with: from none, an empty final table is made |
| TournamentTables.RebalancedIds | packages/tournament/src/balance.ts:21-41 | surviving tables keep their ids |
| Payouts.SharesMakeWhole | packages/tournament/src/payouts.ts:13-18 | harmonic shares fall from place to place and add up to one |
| Payouts.SharesAreHarmonic | packages/tournament/src/payouts.ts:13-18 | the i-th place's share, i times over, is the winner's |
| Payouts.PlacesPaid | packages/tournament/src/payouts.ts:1-7 | for every finish order: one place is paid to two players, two from three on, three from seven on, and p places above three exactly when p is at most fifteen in a hundred of the field |
| Payouts.PrizesInOrder | packages/tournament/src/payouts.ts:48-53 | the i-th prize is for the i-th place, whoever finished there, with the points of that place |
| Payouts.ComputePayouts | packages/tournament/src/payouts.ts:35-56 | the loop pays each place its floor and the last the remainder, for an empty finish order too |
| Payouts.PaysThePool | packages/tournament/src/payouts.ts:35-56 | the prizes are the pool, to the chip |
| Payouts.PrizesNearShares | packages/tournament/src/payouts.ts:45-46 | each paid place above the last gets less than a chip under its exact share; the last gets at least its share and less than one chip extra for each place above it; no prize is negative |
| Payouts.PrizesFallIff | packages/tournament/src/payouts.ts:35-56 | a better place never gets fewer chips, exactly when one place is paid or the chips left for the last are no more than the prize above it |
| Payouts.LastMayBeatSecond | packages/tournament/src/payouts.ts:35-56 | seven entrants at one chip each are paid 3, 1 and 3 |
| Payouts.AmplePoolSuffices | packages/tournament/src/payouts.ts:45-46 | a pool of at least H(p) p p (p - 1) for p paid places keeps the last prize within the one above it |
| Payouts.SmallestPayingField | packages/tournament/src/types.ts:12-13 | the smallest field that pays more than the winner is three players, whatever minPlayers is |
| Payouts.BetterPlaceMorePoints | packages/tournament/src/payouts.ts:28-33 | a better place never gets fewer points |
| Payouts.PointsScale | packages/tournament/src/payouts.ts:27-33 | the winner's points grow with the field from 100 to 200, then 60, 40, and 30 over the place but at least 5 |
| TournamentRules.StartKeeps | packages/tournament/src/engine.ts:57-67 | at the start everyone is seated in range at tables with different ids |
| TournamentRules.BustKeeps | packages/tournament/src/engine.ts:69-110 | a bust leaves one player fewer, still properly seated; the bust that leaves one player completes the tournament with ranking and prizes |
| TournamentRules.BustMerges | packages/tournament/src/engine.ts:69-85 | a bust that leaves two or more leaves the rebalanced tables of those left; once they all fit at one table they sit at one |
| TournamentRules.TakenOff | packages/tournament/src/engine.ts:72-81 | taking a player off a table's list leaves the others in their order |
| TournamentRules.Refusals | packages/tournament/src/engine.ts:35-85 | who is turned away and with which error: not scheduled, not registering, registered twice, full, too few, not running, not active |
| TournamentRules.FinishedKeeps | packages/tournament/src/engine.ts:87-110 | on completion the finish order is a permutation of the field, place by place, and prizes are on record |
| TournamentRules.OneSeatEach | packages/tournament/src/engine.ts:140-150 | two players alive never share a table and seat, and each is listed where their record says |
| TournamentRules.RunKeeps | packages/tournament/src/engine.ts:35-110 | over every order of entries and busts: the field stays within its limits, nobody is seated twice, stacks are the starting stack until out, and a completed tournament has its ranking, prizes and points on record |
| TournamentRules.DonePaysAll | packages/tournament/src/engine.ts:95-110 | a completed tournament has paid every buy-in out again |
| TournamentEngine.SortIds | packages/tournament/src/engine.ts:64 | the entrants in string order of their ids, each once |
| TournamentEngine.SortedOnce | packages/tournament/src/engine.ts:64 | ids that are spelled differently have only one sorted order |
| TournamentEngine.Tournament.OpenRegistration | packages/tournament/src/engine.ts:35-38 | only a scheduled tournament opens, else its error |
| TournamentEngine.Tournament.Register | packages/tournament/src/engine.ts:40-55 | closed, repeated and surplus entries are refused, each with its error |
| TournamentEngine.Tournament.Start | packages/tournament/src/engine.ts:57-67 | status, tables and seats on start, in string order of the ids, or the error |
| TournamentEngine.Tournament.AssignSeats | packages/tournament/src/engine.ts:140-150 | two loops write each listed player's table and seat |
| TournamentEngine.Tournament.KnockOut | packages/tournament/src/engine.ts:72-81 | place, finish order, tables and seats after a bust |
| TournamentEngine.Tournament.Bust | packages/tournament/src/engine.ts:69-85 | the whole of bust, or its error and nothing changed |
| TournamentEngine.Tournament.Complete | packages/tournament/src/engine.ts:87-110 | winner crowned, places paid, prizes recorded |
| DealRng.StepKeeps | services/deal-rng/src/service.ts:31-145 | every call keeps the service right and only ever extends the history |
| DealRng.RunKeeps | services/deal-rng/src/service.ts:31-145 | so does every run of calls |
| DealRng.StagesOfHand | services/deal-rng/src/service.ts:31-35 | after any calls a hand is exactly one of never opened, live and closed, and an id is refused exactly when it has been opened |
| DealRng.HandOnRecord | services/deal-rng/src/service.ts:31-145 | from an opening through any calls to the close: the i-th draw asked for is the i-th card of the deck of the seed, as a card or a burn as asked, until the deck runs out; the public view counts the draws and shows no result before the close, and after it the recorded draws, seed, nonce, deck and the caller's own record |
| DealRng.BurnedAre | services/deal-rng/src/service.ts:137 | the burned cards on record are the cards of the draws that were burns, in order |
| DealRng.CommitmentBinds | services/deal-rng/src/service.ts:76-145 | whatever happens after an opening, the public commitment stays, and a close reveals a seed that hashes to it and generates the deck drawn from |
| DealRng.AlwaysVerifies | services/deal-rng/src/service.ts:111-115 | verification at close cannot fail |
| DealRng.CloseIsFinal | services/deal-rng/src/service.ts:104-145 | closing a live hand succeeds, and closing again at any later time gives the same result and records nothing |
| DealRng.CloseIs | services/deal-rng/src/history.ts:59-65 | the latest close of a hand is its only close |
| DealRng.AppendOnlyHistory.Append | services/deal-rng/src/history.ts:47-49 | one event is added at the end |
| DealRng.DealRngService.Open | services/deal-rng/src/service.ts:31-62 | under the id given or else a random one: refused exactly for a used id, otherwise the commitment is published and recorded |
| DealRng.DealRngService.Draw | services/deal-rng/src/service.ts:64-74 | the n-th draw is the n-th card of the seed's deck, refused past the end or when not live |
| DealRng.DealRngService.PeekPublic | services/deal-rng/src/service.ts:76-102 | the commitment and draw count, and the result only once closed |
| DealRng.DealRngService.Close | services/deal-rng/src/service.ts:104-145 | fails exactly for a hand never opened; otherwise the one recorded result |

## Left out

- Names, event strings, timestamps, snapshots but for what they show of the deal; the WebSocket, HTTP and Socket.IO layers, and authentication.
- SHA-256, hex and the random bytes: the hash is any function whose word streams do not reject for ever.
- Floating point in the rake and in the payout shares: real numbers are used, so rounding of doubles is not modelled.
- Non-integer, NaN or negative amounts from callers; zero amounts are modelled and refused where the code refuses them.
- Tournaments and the shop enter chips in the ledger as events of `Escrow`; the game server has no method for them.
- Deal sources that fail or repeat cards, and the audited remote deal source.
- A remote ledger that fails a call; the escrow lets any time pass between a ledger call falling due and taking effect.
- Seats, tournament players and live hands are values in a field of their object, so aliasing between them is not modelled.
- Library sorts: they are insertion sorts here.
- Calls to `complete` from outside a tournament, the tournament service's buy-ins, leaderboards and the scheduler.
- `sittingOut`, which no code sets: seats that sit out are carried in the state but never arise.
- Clubs, cosmetics, ownership, the Postgres store, the casino lobby and all clients.
