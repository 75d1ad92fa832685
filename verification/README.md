# TarotClub, modelled and proved

This project models the deal engine of TarotClub and the table protocol around
it, the computer players that answer that protocol, the saved deals, and three
lower layers the program carries with it: its JSON printer and parser, the
in-place module identifier resolver of its script engine, and the AES/GHASH code
for Armv8. Every result holds for all inputs, all runs, or all reachable states.

## How it is built

Each part has up to three layers.

* A specification: functions that say what a step does to the state.
  `Tarot`, `Decks`, `Context`, `Engines`, `Scores`, `Tables`, `Bots`, `Json`.
* Objects whose fields and arrays change in place, as in the program. Every
  method is proved to change the object as its specification says and to change
  nothing outside its frame. `DeckObjects`, `ContextObjects`, `ScoreObjects`,
  `EngineObjects`, `TableObjects`, `BotObjects`, `JsonObjects`, and the methods
  in `ModuleIds`, `Ghash`, `Aes` and `KeyExpansion`.
* Theorems about the specification. `EngineProofs`, `TableProofs`, `Deals`,
  `Play`, `Auctions`, `Handles`, `Barriers`, `Mirror`, `Refusals`, `CardTexts`, `Replay`,
  `JsonRoundTrip`.
* Meanings that do not go through the specification: the same facts said in the
  terms of the rules of the game or of a standard, so that a specification that
  took a wrong turn could not satisfy them. `RuleTables`, `Payments`,
  `Tournaments`, `Administrators`, `Messages`, `SavedFiles`, `JsonTexts` and
  `StandardExamples`.

The chain that carries most of the weight starts from one invariant.
`TableProofs.StepKeeps` shows that every request, valid or not, and every join or
leave keeps `TableInv`, with three restrictions: a new game has 1 to 40 deals, the
cards of a new deal are a partition of the deck with a seated first player, and
the last bid of an auction without any other is not empty (that one breaks the
invariant, as the lemma also shows). `TableObjects.PlayingTable.ExecuteRequest`
shows that the object does those same steps. Card conservation,
point conservation, attribution, termination of a deal, barrier safety, the
payment of every deal, the record of a tournament, the agreement of four bots with
the engine and the replay of a saved deal are then results about all runs.

For the cryptographic code the vector instructions are defined once, by their
meaning (carry-less product, exclusive or, lane swap, bit reversal, the AES
steps), and the composition of the C functions is proved against section 6.3 of
NIST SP 800-38D and sections 5.1, 5.2, 5.3 and 5.3.5 of FIPS 197. The meanings
themselves are fixed by the worked examples of FIPS 197 and by known products.

## What the code does that one would not expect

* The team that owns the Fool is decided by the taker alone
  (TarotContext.cpp:430). A partner's Fool in a trick won by the attack is
  counted for the defence; on the last trick, where the Fool should be lost, a
  partner's Fool is always counted for the attack. `Context.FoolKeptBySide` and
  `Context.PartnersFool` give the exact conditions and
  `Context.PartnersFoolGoesToTheDefence` a concrete trick.
* The called partner is not saved (TarotContext.cpp:184-192). A saved deal replays
  with the same owners and points iff no trick was won by a separate partner:
  `Replay.OwnersAgreeIff`, `Replay.DealReplays`, with a concrete trick in
  `Replay.PartnersTrickChangesOwner`.
* The taker's two thirds are rounded by a cast toward zero after adding 0.4, so
  for a lost deal the exact share is raised by one: `Scores.TakerShareOfThree`.
* A bot that has sent its discard never sends another. When hand and dog hold too
  few cards that may be discarded, the table refuses it and stays where it is for
  good: `Mirror.RefusedDiscardIsFinal`. This is the only way a table of bots can
  stop (`Mirror.BotsNeverDeadlock`), and it does happen: `Refusals.BotsCanStop`
  plays such a deal from the first message on.
* A custom deal may name a first player who has no seat at the table; then nobody
  can speak: `EngineProofs.FirstPlayerMustSit`, `Auctions.NobodyCanSpeak`.
* A bid whose text names no contract is a pass, but the empty text is NO_ANY, below
  a pass (Common.h:275-286, `CardTexts.OnlyEmptyTextIsNoBid`). After an auction of
  nothing else the engine shows the dog, or with five players asks for a king,
  without a taker: `EngineProofs.AuctionEndKeeps`, `Auctions.NobodyTakes`.
* A bot keeps the highest bid it has heard into the next deal. If it speaks first
  there, it passes unless it goes above the contract of the deal before:
  `Mirror.BotsHearTheBids`, `Mirror.StaleBid`.
* The scoring product is computed in unsigned 32-bit arithmetic. It is the rule's
  formula iff the result fits 32 signed bits (`Scores.MachineScoreIsRuleScore`),
  which it does at the end of every deal: `Deals.DealScoreIsRuleScore`.
* When the administrator leaves a table, the first seat that is not theirs inherits,
  even when it is free; then nobody can start a game although others sit there:
  `Administrators.StepKeepsAdministrator`, `Administrators.AdministratorLost`.
* A saved trick may name a card again, from itself or from an earlier trick: the file
  is accepted and the trick is one card too long. `SavedFiles.DealAccepted` is the
  exact condition, `SavedFiles.RepeatedCardAccepted` the family of such files.
* The call of a card that does not exist moves the engine on without a word to the
  players: `Messages.NewsIsSent`, `EngineProofs.ExistingKingIsFound`.
* The JSON reader stops at the end of the first array or object and ignores what
  follows. Of the texts of RFC 8259 it refuses exactly those whose document is a
  scalar, or that hold an empty key or an unescaped DEL: `JsonTexts.EveryTextIsRead`.
  The halves of a surrogate pair are encoded one by one, as three bytes each.
* With three or four players a partner in the bid would break the zero sum:
  `Scores.DealIsZeroSum`. The engine never sets one there.

## Model

| member | source | states |
|---|---|---|
| `Tarot.SeatAfterIsSeat` | Common.cpp:113-124 | K turns of `Place::Next` from a seat land k places on, modulo the number of players, and never outside the table |
| `Decks.WithoutAllPartition` | Deck.cpp:74-87 | Taking distinct cards out of a deck of distinct cards splits it: what is left plus what was taken is the deck, and the size drops by exactly that number |
| `Decks.HitsAll` | Deck.cpp:74-87 | The count of removed cards reaches the number asked for iff every one of them was in the deck and none was named twice |
| `Decks.CompleteDeckTotals` | Card.cpp:149-171 | Any arrangement of the full deck holds 91 points (182 half-points) and 3 oudlers |
| `Decks.CompleteDeckCounts` | Deck.cpp:44-63 | A permutation of the created deck holds each card the rules accept exactly once and nothing else |
| `Decks.AnalyzeTotals` | Deck.cpp:752-786 | The accumulating statistics add the card weights of the deck; the oudler counter does so modulo 256 |
| `Decks.HighestTrumpIsHighest` | Deck.cpp:316-331 | The result is a card of the deck, a trump other than the Fool, and no trump is above it; "no card" iff there is no such trump |
| `Decks.LoneSmallTrump` | Deck.cpp:280-291 | The test accepts a hand iff it holds the smallest trump and neither another trump nor the Fool |
| `Decks.HighestSuitIsHighest` | Deck.cpp:340-367 | Without trumps the result is the highest card of the first non-Fool card's suit; "no card" iff nobody led |
| `Decks.TrumpRuleMatches` | Deck.cpp:518-575 | The nested tests over the collected statistics decide exactly the declarative trump rule (trump if able, overtrump if able) |
| `Decks.CanPlayIsMayPlay` | Deck.cpp:406-506 | A card is accepted iff the rules of the game allow it: Fool always, follow the suit led (the second card's when the Fool leads), else trump and overtrump, else anything; a card not in hand never |
| `Decks.SomeCardPlayable` | Deck.cpp:406-575 | Every non-empty hand holds an accepted card whatever the trick |
| `Decks.FirstPlayableFound` | PlayerContext.cpp:131-146 | When some card is accepted the scan finds one: it is from the scanned cards and accepted |
| `Decks.AutoDiscardAccepted` | Deck.cpp:369-392 | The automatic discard passes `TestDiscard` iff hand and dog together hold enough cards that are neither trumps nor kings |
| `Context.OwnerOfPosition` | TarotContext.cpp:157-171 | The seat searched for a card of a trick is the leader's seat shifted by the card's position |
| `Context.LeaderTakes` | TarotContext.cpp:390-428 | The card that the two scans select is in the trick and beats every other card under the declarative order |
| `Context.TrickWinner` | TarotContext.cpp:374-494 | For 3 to 5 distinct cards the winner is the seat of the card that beats the others, except the taker's Fool on the last trick after a won slam so far, which wins |
| `Context.FoolKeptBySide` | TarotContext.cpp:425-464 | The Fool's points go to the side the rules name, on the last trick (lost unless it crowns the taker's slam) as before it (kept), iff the Fool was not played by a partner distinct from the taker |
| `Context.PartnersFool` | TarotContext.cpp:428-464 | Such a partner's Fool is always counted for the defence before the last trick and always for the attack on it |
| `Context.PartnersFoolGoesToTheDefence` | TarotContext.cpp:430 | A concrete trick with five players won by the taker: the partner's Fool goes to the defence, and on the last trick, where it should be lost, it stays |
| `Context.JudgeInRange` | TarotContext.cpp:374-494 | The stored winner is a seat of the table and a swap only happens on the trick holding the Fool |
| `Context.SetTrickJudged` | TarotContext.cpp:374-494 | Storing a trick keeps the running record: winners, owners, tricks won and accumulated points are those of the tricks judged one by one |
| `Context.SidesShareTricks` | TarotContext.cpp:442-491 | Attack plus the symmetric defence share of every prefix of tricks is the whole weight of its cards, for half-points and for oudlers, Fool swaps included, and neither share is negative |
| `Context.RoundingIsFair` | TarotContext.cpp:536-559 | The rounded score is a whole number in 0..91, within half a point of the exact one, and reaches the contract iff the exact one does |
| `Context.AuctionOutcome` | TarotContext.cpp:62-76 | Over any sequence of bids the first highest one above the initial NO_ANY wins, with its slam flag and its seat; without one the bid stays unset |
| `Auctions.BidKeepsAuction` | Engine.cpp:216-225 | An accepted bid keeps the bid the outcome of all bids so far, made once by each seat in turn |
| `Auctions.SequenceKeepsAuction` | Engine.cpp:351-378 | The next seat is asked iff a seat has not spoken and the highest bid is no slam |
| `Auctions.DealFollowsAuction` | PlayingTable.cpp:351-401 | Over any run from the dealing of the cards to the end of the deal the engine's bid is the outcome of the accepted bids, each seat having spoken at most once in turn from the seat after the dealer, until all have or a slam ended it; and the taker leads the play after a slam, else that same first seat |
| `Auctions.NobodyCanSpeak` | PlayingTable.cpp:351-401 | When the player to speak has no seat, no bid of anyone is accepted |
| `Auctions.NobodyTakes` | Engine.cpp:351-378 | A concrete auction, every bid of it empty: the invariant holds up to the last bid, after which the engine goes on without a taker |
| `Auctions.TakerBidHighest` | TarotContext.cpp:62-76 | In a deal being played the taker was the first to announce the contract, with its slam flag, and nobody bid higher |
| `EngineProofs.RandomDealPartitions` | DealGenerator.cpp:70-104 | Cutting a complete deck gives every seat a full hand, a dog of the right size, and together every card once |
| `EngineProofs.NewDealKeeps` | Engine.cpp:90-111 | A new deal from any shuffle or any partitioning file establishes the engine invariant |
| `EngineProofs.DealIsAsGiven` | Engine.cpp:90-115 | Each seat gets its own hand of the file or its slice of the deck in the order of the seats, the first player is the file's or the seat after the one before, and sits after the dealer |
| `EngineProofs.FirstPlayerMustSit` | Engine.cpp:424-430 | A deal from a file that partitions the deck keeps the invariant iff the first player it names has a seat |
| `EngineProofs.SetBidKeeps` | Engine.cpp:216-225 | An announced bid keeps the engine invariant iff it, or the highest bid so far, is at least a pass, or a seat has still to speak |
| `EngineProofs.AuctionEndKeeps` | Engine.cpp:351-378 | When every seat has spoken, the end of the auction keeps the invariant iff somebody made a bid; otherwise the dog is shown, or with five players a king is asked for, without a taker |
| `EngineProofs.BidSequenceKeeps` | Engine.cpp:351-378 | After the cards or a shown bid the auction goes on, ends with all passed, asks for a king, shows the dog or starts, and the invariant holds in each case |
| `EngineProofs.AfterBidKeeps` | Engine.cpp:332-344 | After the auction the dog is shown for a take or a guard, becomes the attack's pile for a guard without it and the defence's for a guard against it, and the deal starts |
| `EngineProofs.StartDealKeeps` | Engine.cpp:117-145 | Starting the play establishes the play invariant, and the first trick is led by the taker after a slam, else by the seat after the dealer |
| `EngineProofs.SetKingCalledKeeps` | Engine.cpp:227-265 | A called king moves no card and changes nothing of the bid but the partner, who, when one is found, holds the card, or is the taker when the dog has it |
| `EngineProofs.ExistingKingIsFound` | Engine.cpp:227-265 | A permitted call finds a partner iff the card called exists |
| `EngineProofs.DiscardLeavesFullHand` | Deck.cpp:616-652 | An accepted discard taken from hand and dog leaves a hand of the old size, and hand plus discard is exactly the old hand plus dog |
| `EngineProofs.SetDiscardKeeps` | Engine.cpp:147-166 | An accepted discard and the start of the deal keep the invariant |
| `EngineProofs.SetDiscardCards` | Engine.cpp:147-166 | After an accepted discard every hand is full and hands plus discard are the whole deck |
| `EngineProofs.SetHandleKeeps` | Engine.cpp:174-185 | A declared handle keeps the invariant and every hand |
| `EngineProofs.SetCardCards` | Engine.cpp:187-214 | An accepted card moves from the hand to the trick and the cards on the table are still the whole deck |
| `EngineProofs.SetCardKeeps` | Engine.cpp:187-214 | An accepted card keeps the invariant: turn order, hand sizes, cards and score |
| `EngineProofs.EndOfTrickStores` | Engine.cpp:293-321 | A full trick is stored and judged, the table cleared, the winner made the next player and nothing else changed |
| `EngineProofs.GameSequenceKeeps` | Engine.cpp:293-321 | Each step of the play from each phase that takes one keeps the invariant |
| `EngineProofs.LastTrickScored` | Engine.cpp:323-330 | Ending the deal adds the discard to the record and leaves every stored trick alone |
| `EngineProofs.PointsIgnoreTrumps` | TarotContext.cpp:496-565 | The final points depend only on tricks, tricks won, discard as a multiset with its owner, handle sizes and the point counters |
| `Scores.MachineScoreIsRuleScore` | Score.cpp:160-191 | The unsigned 32-bit product read back as signed is the rule's integer formula iff that fits 32 signed bits |
| `Scores.TakerShareOfThree` | Score.cpp:259-264 | The taker's two thirds are exact for a positive attack and one above for a negative one, where the cast truncates toward zero |
| `Scores.PartnersShare` | Score.cpp:231-291 | Taker and partner together receive the attack's score exactly and the taker is within one point of two thirds |
| `Scores.AttackMirrorsDefense` | Score.cpp:160-191 | The attack's score is minus the defenders' together, and one is zero iff the other is |
| `Scores.DealIsZeroSum` | Score.cpp:231-291 | The seats' scores of a deal sum to zero iff there are five players, or no partner, or nothing to pay |
| `Scores.AddPointsZeroSum` | Score.cpp:231-291 | Recording a deal keeps every recorded deal summing to zero over the seats |
| `Scores.TotalsAreZeroSum` | Score.cpp:293-303 | The seats' totals after any number of recorded deals sum to zero |
| `TableProofs.AddPlayerKeeps` | PlayingTable.cpp:151-185 | A join keeps the table invariant whatever phase it falls in |
| `TableProofs.RemovePlayerKeeps` | PlayingTable.cpp:187-219 | A leave keeps the table invariant, the administrator's seat included |
| `TableProofs.SyncOpens` | PlayingTable.cpp:107-120 | The barrier opens iff the acknowledged phase is the engine's and every other seat has already acknowledged it |
| `TableProofs.StepNamesRoundTrip` | Network.cpp:5-48 | Phase names and phases are inverse on the phases that take an acknowledgement; every other name is refused |
| `TableProofs.BarrierKeeps` | PlayingTable.cpp:268-329 | The handler behind an opened barrier keeps the invariant and leaves no flag raised |
| `TableProofs.NoFlagWithoutAck` | PlayingTable.cpp:45-120 | In a phase without acknowledgement no flag is raised |
| `TableProofs.StepKeeps` | PlayingTable.cpp:239-527 | Every request with an existing contract and 1 to 40 deals, valid or not, every join and every leave keeps the invariant of table, engine, score and flags, iff it is not the empty bid that ends an auction without any bid |
| `Deals.RunKeeps` | PlayingTable.cpp:239-527 | So does every run of such events without that empty bid |
| `Deals.CreatedTable` | PlayingTable.cpp:137-149 | A created table satisfies the invariant, so the results about runs start somewhere |
| `Deals.CardsAreConserved` | Engine.cpp:147-321 | In every reachable state from the deal to the last trick, hands, trick, stored tricks and dog or discard hold each of the 78 cards exactly once |
| `Deals.AttackInRange` | TarotContext.cpp:442-491 | Throughout the play the attack's half-points stay in 0..182 and its eight-bit oudler counter holds the true count, at most 3 |
| `Deals.PointsAreConserved` | TarotContext.cpp:496-565 | At the end of every deal attack and defence share 91 points and 3 oudlers, the score lies in 0..91, and the announced winner is the side that met its contract on the unrounded points |
| `Deals.PointsAnnounced` | TarotContext.cpp:496-565 | The final points are the attack's share of all tricks and discard, rounded |
| `Deals.OudlersFit` | TarotContext.cpp:527-532 | The oudlers of both counts stay in 0..3, so no byte wraps |
| `Deals.AttackParity` | TarotContext.cpp:536-559 | The attack's half-points have the parity of its number of cards |
| `Deals.FourPlayersNeverRound` | TarotContext.cpp:536-559 | With four players the score is never rounded |
| `Payments.TablesAgree` | Common.cpp:239-376 | The goals, the multipliers and the handle bonuses are the tables of the game, entry by entry |
| `Payments.WinnersGain` | Score.cpp:46-158 | The rule score is what the attack gains when it reaches its goal and the opposite otherwise: the stake with its margin, the smallest trump to the side that took it, the handles to the winner, the slam to who did it, an announced slam that failed against the attack |
| `Payments.SeatsArePaid` | Score.cpp:160-291 | Every seat's entry by the rules: (n - 1) gains for a lone taker, the loss of each defender, two thirds and one third of the attack's with a partner, with the sign of the winners |
| `Payments.GuardMadeByNineteen` | Score.cpp:160-191 | A guard made by 19 points with four players is +264 for the taker and -88 for a defender |
| `Payments.SlamIsEveryTrick` | TarotContext.cpp:501-509 | At the end of a deal a slam is done iff one side won every trick |
| `Payments.PetitAtTheEnd` | TarotContext.cpp:514-534 | The bonus goes to the side that won the deciding trick iff that trick holds the smallest trump, and to nobody otherwise; the deciding trick is the last, or the one before a Fool that ends a slam |
| `Payments.HandlesCounted` | TarotContext.cpp:561-564 | The handle points of a deal are the bonuses of both sides' handles |
| `Payments.DealIsPaid` | Score.cpp:231-291 | At the end of every deal of every run each seat's entry is what the rules give, and the contract is made iff the attack's judged cards reach its goal |
| `Payments.EntriesAreRecorded` | Score.cpp:231-310 | The entry goes to its seat in the row of the deal, other rows stay, and the seat's total grows by exactly its entry |
| `Deals.DealScoreIsRuleScore` | Score.cpp:160-191 | At the end of every deal the unsigned arithmetic gives the score of the rules, which lies between -185 and 1026 |
| `Play.CardsLeft` | Engine.cpp:187-214 | The cards still in hand are exactly the cards still to be played according to position and trick counter |
| `Play.LastTrickMeansEmpty` | Common.cpp:227-237 | The deal is finished iff no trick is open and all hands are empty, and then every stored trick is full |
| `Play.PlayStepDecreases` | Engine.cpp:293-321 | Every event that changes the engine within a deal decreases a natural measure |
| `Play.DealIsFinite` | PlayingTable.cpp:675-737 | Over any run within a deal the moves are bounded by the measure consumed, the accepted cards are the drop in cards to play, and a whole deal accepts exactly players times hand size cards |
| `Play.EndsOfDeal` | Common.cpp:205-220 | Cards to play are all of them when the play starts and none when it ends |
| `Play.DiscardPossible` | Engine.cpp:147-166 | Some discard is accepted iff hand and dog hold enough discardable cards |
| `Play.CardPossible` | Engine.cpp:187-214 | Whenever a card is awaited the player to move has an accepted one |
| `Play.SomeoneCanMove` | PlayingTable.cpp:239-527 | At every full table some player's request other than a new game changes the engine or raises a flag iff the state is not stuck: game not running, discard impossible, or the last arrival at an administrator's table |
| `Play.GameGoesOn` | PlayingTable.cpp:239-527 | The players' requests alone can bring a full table's engine to its next step iff the game runs, or starts by itself, and no impossible discard is awaited |
| `Play.PlayersFinish` | PlayingTable.cpp:675-737 | Once a deal is being played, the players' requests alone can bring any full table to its end |
| `Play.BarrierMoves` | PlayingTable.cpp:268-329 | The handler behind a barrier changes the engine, except at an administrator's table that waits to be started |
| `Play.EndOfDealIsReported` | PlayingTable.cpp:318-323 | A request is reported as ending a deal iff it makes the engine leave the finished deal |
| `Play.RunAttributes` | Engine.cpp:187-214 | Over any run of the play each stored card stays attributed to the hand it was dealt to |
| `Play.TricksAreAttributed` | TarotContext.cpp:157-171 | The owner computed for each position of each stored trick held that card when the play started, and each trick is led by the winner of the one before |
| `Play.DealStartsAttributed` | Engine.cpp:117-145 | The start of the play satisfies the attribution invariant |
| `Handles.StepAsks` | PlayingTable.cpp:675-737 | In the play of a deal a seat that is asked for a handle had not been asked before, and no other step asks |
| `Handles.HandlesAreAsked` | Engine.cpp:293-321 | Over any run within a deal exactly the seats up to the one to play have been asked in the first trick, and all of them from the second on |
| `Barriers.HistoryMatches` | PlayingTable.cpp:45-120 | The flags of the seats are at all times what the log of received acknowledgements since the phase was entered says |
| `Barriers.BarrierIsSafe` | PlayingTable.cpp:239-350 | Over all interleavings a phase handler runs iff the acknowledgement names the engine's phase, comes from a seat, and every other seat has acknowledged since the phase was entered |
| `Tournaments.DealRecorded` | PlayingTable.cpp:534-553 | The last acknowledgement of a finished deal records its row by the rules, keeps the others, and deals again iff fewer deals are recorded than the game has, else tells everybody that the game is over |
| `Tournaments.ScoreStays` | PlayingTable.cpp:239-527 | Nothing else that happens in a game changes its score or its number of deals |
| `Tournaments.GameIsRecorded` | PlayingTable.cpp:534-601 | Over any run within a game each finished deal is recorded once, recorded rows never change, and the game is over iff all its deals are recorded |
| `Tournaments.WholeGame` | PlayingTable.cpp:534-601 | A game from an empty record is over iff exactly its number of deals was finished |
| `Tournaments.GameStarts` | PlayingTable.cpp:555-567 | A game starts with an empty record of as many deals as were asked for |
| `Tournaments.GameStartsOver` | PlayingTable.cpp:580-601 | After the end of a game another of the same length begins with an empty record; within a game the record is kept |
| `Administrators.JoinTakesFirstFreeSeat` | PlayingTable.cpp:151-185 | A player gets seat i iff it is the first free one and the player does not sit already, and nobody else moves |
| `Administrators.JoinKeepsAdministrator` | PlayingTable.cpp:151-185 | The first to join administrates the table, and a join takes that from nobody |
| `Administrators.LeaveKeepsAdministrator` | PlayingTable.cpp:187-219 | After a leave somebody who sits administrates iff it is not the administrator leaving while the first seat of another is free |
| `Administrators.RequestKeepsPlayers` | PlayingTable.cpp:239-527 | No request moves a player or changes the administrator |
| `Administrators.StepKeepsAdministrator` | PlayingTable.cpp:151-527 | Every event keeps a seated administrator, iff it is not that leave |
| `Administrators.NewTableHasNobody` | PlayingTable.cpp:137-149 | A table just created has neither players nor an administrator |
| `Administrators.RunKeepsAdministrator` | PlayingTable.cpp:151-527 | Over any run without that leave the table has an administrator as soon as somebody sits |
| `Administrators.AdministratorLost` | PlayingTable.cpp:187-219 | A table on which the administrator leaves and nobody administrates although another player sits there |
| `Messages.EveryMessageIsTrue` | PlayingTable.cpp:239-737 | Whatever is asked, every message sent describes the state it leads to (phase, seat to act, bid, dog, cards, handle) and goes to everybody or to the one seat concerned |
| `Messages.BidIsShown` | PlayingTable.cpp:351-401 | An accepted bid is shown as made if it goes above the earlier ones, else as a pass |
| `Messages.NewsIsSent` | PlayingTable.cpp:239-737 | Something is sent iff the engine changed, except for the call of a card that does not exist |
| `Messages.EverybodyGetsCards` | PlayingTable.cpp:580-601 | A new deal is sent seat by seat, to each its own hand |
| `Mirror.ChosenIsAccepted` | Bot.cpp:477-526 | The discard a bot sends, from its script or by default, is accepted iff the taker has enough discardable cards |
| `Mirror.ChosenCardAccepted` | PlayerContext.cpp:131-146 | A bot whose hand and trick mirror the engine plays a card that the engine accepts |
| `Mirror.BarrierEntered` | PlayingTable.cpp:268-329 | After each barrier the messages sent bring every bot that knew the old state to know the new one |
| `Mirror.RequestStep` | PlayingTable.cpp:239-527 | After each request a bot may send, every bot agrees with the engine up to the messages still unread |
| `Mirror.DeliverKeeps` | Bot.cpp:58-352 | Reading a message keeps the agreement between all bots, the queues and the table |
| `Mirror.ProcessKeeps` | PlayingTable.cpp:239-527 | Executing a queued request keeps it |
| `Mirror.BotsMirrorTheEngine` | Bot.cpp:58-352 | In every run of a table of four bots, whenever a card is awaited each bot has the engine's hand and trick, or it is the player and its accepted card is on the way |
| `Mirror.BotsHearTheBids` | Bot.cpp:89-104 | In every run, while a bid is awaited, a bot remembers the engine's highest contract iff a seat has spoken in this deal or nothing is left from an earlier one; a bid under way is a pass or goes higher |
| `Mirror.StaleBid` | PlayerContext.cpp:551-559 | A bot that heard a guard against the dog in one deal opens the next auction with a pass, whatever its script says |
| `Mirror.BotsNeverDeadlock` | Bot.cpp:58-352 | From every reachable state of a table of four bots some deliveries and requests move the engine, iff it is not waiting for a discard that the taker's hand and dog do not allow |
| `Mirror.BotsFinishTheDeal` | Bot.cpp:58-352 | Every deal that a table of four bots has begun to play is finished by some deliveries and requests |
| `Mirror.RefusedDiscardIsFinal` | PlayingTable.cpp:402-423 | Over any run from such a refused discard the engine stays where it is |
| `Mirror.FourBotsSitDown` | PlayingTable.cpp:151-185 | Four joins, with acknowledgements of those already seated in any order between them, lead to a state from which these runs start |
| `Refusals.TooFewToDiscard` | Deck.cpp:616-652 | In the unshuffled deck the last seat's hand and the dog hold too few discardable cards |
| `Refusals.DealIsValid` | DealGenerator.cpp:70-104 | The generator does not reject that deal |
| `Refusals.BotsCanStop` | Bot.cpp:58-352 | A concrete run of messages, from sitting down through the auction, after which the taker cannot discard and no further run moves the engine |
| `Refusals.AStopExists` | PlayingTable.cpp:402-423 | Such a run starts from a table just created and joined by four bots |
| `CardTexts.CardTextReadBack` | Card.cpp:46-86 | The name of every valid card reads back as that card and contains no separator |
| `CardTexts.DeckTextReadBack` | Deck.cpp:678-713 | The text of every deck of valid cards reads back as the same deck |
| `CardTexts.NamesReadBack` | Common.cpp:87-186 | Seat and contract names read back |
| `CardTexts.OnlyEmptyTextIsNoBid` | Common.h:275-286 | A contract text reads as no bid at all iff it is empty; a text that names no contract reads as a pass |
| `RuleTables.CardsAreWorth` | Card.cpp:149-171 | The half-points of every card, which cards are oudlers, and which may be discarded, value by value |
| `RuleTables.HandsAndDog` | Common.cpp:205-225 | Sizes of hands and dog with three, four and five players, 78 cards in all |
| `RuleTables.NamesAreKnown` | Card.cpp:46-53 | How cards, seats and contracts are spelled |
| `RuleTables.CardNamesAreRead` | Card.cpp:72-86 | Two digits, any character and the letter of a suit are read as that card |
| `RuleTables.OddCardNames` | Card.cpp:72-86 | A name of another length is no card; short, signed and missing numbers and unknown suits are read as the stream reads them |
| `RuleTables.StepsAreKnown` | Network.cpp:5-18 | Which phase each acknowledgement of a player names |
| `RuleTables.TrumpsCounted` | Deck.cpp:752-786 | The counter of trumps is their number, and every card is a trump iff it is the size of the deck |
| `RuleTables.HandleIs` | Deck.cpp:577-606 | A handle is accepted iff it has 10, 13 or 15 trumps of the hand, with the Fool only when the hand has no more trumps |
| `RuleTables.HandleIsKept` | TarotContext.cpp:26-36 | The taker's and the partner's handle is the attack's, any other the defence's |
| `RuleTables.ValuesCounted` | Deck.cpp:788-845 | The counter of a value is the number of suits in which the hand holds it, four iff it holds all |
| `RuleTables.CallsAllowed` | TarotContext.cpp:106-155 | A card may be called iff the hand holds all four kings, queens, knights and jacks above it |
| `RuleTables.StrengthDecides` | PlayerContext.cpp:54-122 | The strength from which on a bot makes each contract |
| `RuleTables.BotBids` | Bot.cpp:354-396 | A bot bids its script's contract, or its hand's if the script gives none, iff that is above the highest bid it knows, else it passes |
| `RuleTables.BotDiscards` | Bot.cpp:477-526 | A bot sends its script's discard iff it has the right size and follows the rules, else the automatic one, and lays it aside |
| `RuleTables.BotSticksToSlam` | Bot.cpp:354-396 | Without an answer of its script a bot repeats what it last said about a slam, until a new deal |
| `RuleTables.BotRemembers` | Bot.cpp:58-352 | What a bot keeps of the bids, the dog and the cards it is told |
| `Replay.LookupAfter` | JsonValue.cpp:171-175 | Setting a key gives it the new value and leaves every other key as it was |
| `Replay.SavedFileParses` | TarotContext.cpp:176-202 | The file saved for a deal parses back to the saved tree |
| `Replay.LoadTricksRebuilds` | TarotContext.cpp:292-352 | Loading the first k tricks stores the same cards and leaves in the discard the cards those tricks do not hold |
| `Replay.LoadRestores` | TarotContext.cpp:204-360 | Loading succeeds and restores header, tricks, discard as a multiset and discard owner |
| `Replay.OwnersAgreeIff` | TarotContext.cpp:184-192 | All tricks get their owners back iff a separate partner won none of them |
| `Replay.PartnersTrickChangesOwner` | TarotContext.cpp:374-494 | A concrete trick won by a separate partner belongs to the attack in play and to the defence once the partner is lost |
| `Replay.RestoredScore` | TarotContext.cpp:496-565 | Then the reloaded record scores like the original, whatever the counters it starts from |
| `Replay.SavedDealLoads` | TarotContext.cpp:176-360 | Every finished deal saved, printed at any indentation, parsed and loaded succeeds and restores the record |
| `Replay.DealReplays` | TarotContext.cpp:374-565 | The replayed deal has the same owners iff no trick was won by a separate partner, and then the same tricks, winners, tricks won and announced points |
| `SavedFiles.DealAccepted` | TarotContext.cpp:286-360 | Saved tricks are accepted iff there is one for each card of a hand and each names as many cards not named before as there are players |
| `SavedFiles.RepeatedCardAccepted` | TarotContext.cpp:292-318 | An accepted file stays accepted when a trick names a card again, and then holds a trick that is too long |
| `SavedFiles.DealIsFiled` | TarotContext.cpp:176-202 | Under which name each part of a deal is saved |
| `SavedFiles.FileAccepted` | TarotContext.cpp:204-360 | Exactly which files are loaded, and what each field of the header becomes |
| `JsonRoundTrip.StringReadBack` | JsonReader.cpp:111-203 | A printed string reads back iff it has no quote and no control character |
| `JsonRoundTrip.IntegerReadBack` | JsonReader.cpp:441-519 | Every printed integer reads back, whatever delimiter follows |
| `JsonRoundTrip.RunValue` | JsonReader.cpp:73-437 | Reading a printed value on any stack adds exactly that value to the open node |
| `JsonRoundTrip.RunItems` | JsonValue.cpp:24-51 | Reading printed items appends them, in order, to the open array |
| `JsonRoundTrip.RunMembers` | JsonValue.cpp:136-164 | Reading printed members adds them under their keys to the open object |
| `JsonRoundTrip.ParsePrinted` | JsonReader.cpp:62-439 | `Parse` of `ToString` is the same tree, for every storable array or object and every indentation level |
| `JsonTexts.BytesDecode` | JsonReader.cpp:142-171 | The bytes of a `\u` escape are the shortest UTF-8 encoding of its code |
| `JsonTexts.PiecesRead` | JsonReader.cpp:111-203 | A string written with any mix of plain characters, the eight two-character escapes and `\u` escapes is read as those characters; it is refused iff DEL stands in it unescaped |
| `JsonTexts.DecimalsRead` | JsonReader.cpp:441-519 | A number with a point or an exponent is read as the real number it denotes |
| `JsonTexts.LeafRead` | JsonReader.cpp:79-250 | Every literal, number and string is read as what it means up to the delimiter that follows |
| `JsonTexts.EveryTextIsRead` | JsonReader.cpp:62-439 | A text of the grammar of RFC 8259 is accepted iff it is an array or an object without empty keys and unescaped DEL; it is then read as what it means, whatever follows it |
| `JsonTexts.SkippedCharacters` | JsonReader.cpp:76-78 | Which characters are skipped as white space |
| `JsonTexts.RefusedTexts` | JsonReader.cpp:252-420 | Texts for each way of being refused because of a bracket or a separator |
| `JsonTexts.RefusedScalars` | JsonReader.cpp:79-250 | Texts for each way of being refused because of a scalar or an unquoted key |
| `JsonTexts.UnfinishedTexts` | JsonReader.cpp:422-439 | A text that ends before its document does is refused |
| `JsonTexts.PrintedLayout` | JsonValue.cpp:13-165 | The line breaks, the indentation and the separators of printed trees |
| `JsonTexts.KeyOrder` | JsonValue.cpp:136-175 | Members are in the order of their keys, character by character, a shorter key first |
| `JsonObjects.CreateIndent` | JsonValue.cpp:13-22 | The loop writes four spaces a level and nothing for a negative level |
| `JsonObjects.EscapeBackslashes` | JsonValue.cpp:280-291 | The loop doubles each backslash and copies the rest |
| `JsonObjects.ArrayToString` | JsonValue.cpp:24-51 | The loop over an array prints the specified text |
| `JsonObjects.ObjectToString` | JsonValue.cpp:136-164 | The loop over an object prints the specified text |
| `JsonObjects.ValueToString` | JsonValue.cpp:270-313 | The dispatch over tags prints the specified text |
| `JsonObjects.PowerBySquaring` | JsonReader.cpp:486-499 | Halving the exponent and squaring the base computes the power |
| `JsonObjects.StringToNumber` | JsonReader.cpp:441-519 | The pointer loops read sign, digits, fraction and exponent as the recursive reading does and stop where it stops |
| `JsonObjects.ScanString` | JsonReader.cpp:111-203 | The scan of a string, with its escapes, agrees with the recursive reading, errors included |
| `JsonObjects.ScanEscape` | JsonReader.cpp:121-179 | One escape contributes the specified characters or is refused |
| `JsonObjects.AddValue` | JsonReader.cpp:397-421 | A value lands in the node on top, under the pending key of an object, and the key is cleared |
| `JsonObjects.CloseNode` | JsonReader.cpp:276-308 | Closing copies the finished node into its parent, or ends the document |
| `JsonObjects.CloseBracket` | JsonReader.cpp:266-356 | A closing bracket is refused in exactly the specified cases with the specified status |
| `JsonObjects.Turn` | JsonReader.cpp:73-437 | One turn of the loop over pointer, depth and the three maps is one step of the stack machine |
| `JsonObjects.Parse` | JsonReader.cpp:62-439 | The loop over the `nodes`, `keys` and `tags` maps returns what the stack machine returns for every text, well formed or not; `JsonTexts.EveryTextIsRead` says what that is |
| `ModuleIds.ResolvedIsNormal` | jsengine/duk_module_duktape.c:31-184 | A resolved identifier has only ordinary terms, resolves to itself from any base, and the second output is its last term |
| `ModuleIds.RelativeToParent` | jsengine/duk_module_duktape.c:69-73 | A relative identifier walks from the terms of the base without its last one |
| `ModuleIds.CopyTerm` | jsengine/duk_module_duktape.c:143-162 | The inner copy loop moves a term down without touching unread input or output already written |
| `ModuleIds.EatSlashes` | jsengine/duk_module_duktape.c:165-173 | Duplicate slashes are skipped, no more |
| `ModuleIds.Backtrack` | jsengine/duk_module_duktape.c:118-133 | Stepping back to the previous slash pops exactly the last term |
| `ModuleIds.ReadDots` | jsengine/duk_module_duktape.c:106-139 | A term starting with a dot is a skip, a pop or the specified error |
| `ModuleIds.ReadTerm` | jsengine/duk_module_duktape.c:140-174 | An ordinary term is pushed, and ends the walk when it is the last |
| `ModuleIds.ResolveModuleId` | jsengine/duk_module_duktape.c:31-184 | The two-pointer rewrite in place returns what the stack of terms gives, on every input and with every error |
| `Ghash.PolyMultIsProduct` | mbedtls-3.4.1/library/aesce.c:329-346 | The four carry-less products combine to the polynomial product |
| `Ghash.ReduceIsRemainder` | mbedtls-3.4.1/library/aesce.c:362-382 | The two folding steps give the remainder modulo x^128 + x^7 + x^2 + x + 1, of degree below 128 |
| `Ghash.BlockProductIsHorner` | mbedtls-3.4.1/library/aesce.c:329-382 | The reduced product is the sum of shifted and reduced multiples |
| `Ghash.MultIsBlockProduct` | mbedtls-3.4.1/library/aesce.c:329-396 | Multiplication and reduction together are the product in GF(2^128) |
| `Ghash.NistIsBlockProduct` | mbedtls-3.4.1/library/aesce.c:387-396 | The shift-and-xor definition of section 6.3 of NIST SP 800-38D computes the same product on reflected bits |
| `Ghash.GcmMultIsNistProduct` | mbedtls-3.4.1/library/aesce.c:387-396 | With the bit reversals the function is that section's block product, for all 128-bit inputs |
| `Ghash.KnownProducts` | mbedtls-3.4.1/library/aesce.c:387-396 | In the standard's bit order the block with the first bit is one, and x times the last bit is the reduction constant |
| `Ghash.MbedtlsAesceGcmMult` | mbedtls-3.4.1/library/aesce.c:387-396 | The buffer written is the block product of the two buffers read, also when they are the same buffer |
| `ByteField.InverseIsInverse` | mbedtls-3.4.1/library/aesce.c:92-147 | The tabulated inverse in GF(2^8) times the byte is one, for every non-zero byte |
| `ByteField.SBoxInverts` | mbedtls-3.4.1/library/aesce.c:92-147 | The inverse substitution undoes the substitution on every byte |
| `ByteField.InvMixInverts` | mbedtls-3.4.1/library/aesce.c:92-147 | InvMixColumns undoes MixColumns |
| `ByteField.InvMixLinear` | mbedtls-3.4.1/library/aesce.c:173-186 | InvMixColumns is linear, which is what lets the round keys be transformed |
| `Aes.AesdUndoesAese` | mbedtls-3.4.1/library/aesce.c:92-147 | The decryption step of the instruction set undoes the encryption step up to its key |
| `Aes.EncryptLoopIsCipher` | mbedtls-3.4.1/library/aesce.c:92-114 | Key addition before each round, as the instruction does it, is the cipher of section 5.1 of FIPS 197 |
| `Aes.InvCipherUndoes` | mbedtls-3.4.1/library/aesce.c:116-147 | The inverse cipher of section 5.3 undoes the cipher for every number of rounds and all keys |
| `Aes.DecryptLoopIsEqInvCipher` | mbedtls-3.4.1/library/aesce.c:116-147 | Each state of the decryption loop, its next key added, is that of the section's rounds |
| `Aes.EqInvStateIsInvState` | mbedtls-3.4.1/library/aesce.c:116-186 | With transformed keys each of those states is a state of the inverse cipher |
| `Aes.EqInvCipherIsInvCipher` | mbedtls-3.4.1/library/aesce.c:116-186 | The equivalent inverse cipher of section 5.3.5, in the order of that section, with transformed keys is the inverse cipher of section 5.3 |
| `Aes.AesceEncryptBlock` | mbedtls-3.4.1/library/aesce.c:92-114 | The loop over the key buffer computes the cipher, whose transformations `StandardExamples` fixes |
| `Aes.AesceDecryptBlock` | mbedtls-3.4.1/library/aesce.c:116-147 | The loop over the key buffer computes the equivalent inverse cipher of section 5.3.5 |
| `Aes.MbedtlsAesceInverseKey` | mbedtls-3.4.1/library/aesce.c:173-186 | The buffer holds the round keys in reverse order, the inner ones transformed, and nothing beyond them changes |
| `Aes.MbedtlsAesceCryptEcb` | mbedtls-3.4.1/library/aesce.c:152-168 | The output is the cipher or its equivalent inverse applied to the old input, also in place |
| `Aes.DecryptionUndoesEncryption` | mbedtls-3.4.1/library/aesce.c:92-186 | Decryption with transformed keys undoes encryption for every block, every round count and every round-key array |
| `KeyExpansion.RotIsRotWord` | mbedtls-3.4.1/library/aesce.c:188-191 | The rotation of the little-endian word is RotWord |
| `KeyExpansion.SubIsSubWord` | mbedtls-3.4.1/library/aesce.c:193-202 | The substitution by the encryption instruction on a duplicated word, row shift undone by the duplication, is SubWord |
| `KeyExpansion.RotateSubstituted` | mbedtls-3.4.1/library/aesce.c:188-202 | Rotating after substituting is substituting after rotating |
| `KeyExpansion.RconIsPower` | mbedtls-3.4.1/library/aesce.c:207-257 | The ten round constants are the powers of x |
| `KeyExpansion.PlainWord` | mbedtls-3.4.1/library/aesce.c:232-256 | A word inside a chunk is the xor of its neighbours in the recurrence of section 5.2 of FIPS 197 |
| `KeyExpansion.MiddleWord` | mbedtls-3.4.1/library/aesce.c:244-256 | The middle word of an eight-word chunk is the substituted case of the recurrence |
| `KeyExpansion.FirstWord` | mbedtls-3.4.1/library/aesce.c:222-232 | The first word of a chunk is the rotated case of the recurrence |
| `KeyExpansion.RoundFits` | mbedtls-3.4.1/library/aesce.c:207-257 | No chunk starts past the last needed word, reads past the round constants, or writes past the end of the key |
| `KeyExpansion.AesceSetkeyEnc` | mbedtls-3.4.1/library/aesce.c:207-257 | For 128, 192 and 256-bit keys every word is that of the recurrence, words beyond are untouched, and each word is written once and in order |
| `StandardExamples.RowsMoveLeft` | mbedtls-3.4.1/library/aesce.c:92-147 | Row r of the state moves left by r columns, and the inverse moves it back |
| `StandardExamples.ColumnsAreMixed` | mbedtls-3.4.1/library/aesce.c:92-114 | Each column is mixed by itself, rows in order |
| `StandardExamples.KnownBytes` | mbedtls-3.4.1/library/aesce.c:92-147 | Known values of the substitution and of one mixed column |
| `StandardExamples.FirstRound` | mbedtls-3.4.1/library/aesce.c:92-114 | The first round of the example of appendix B of FIPS 197 gives the state that follows it there |
| `StandardExamples.LastRound` | mbedtls-3.4.1/library/aesce.c:92-114 | The last round of that example gives its ciphertext |
| `StandardExamples.ExpandedKnownKey` | mbedtls-3.4.1/library/aesce.c:207-257 | The first words derived from the 128-bit key of appendix A of FIPS 197 |
| `StandardExamples.ExpandedLongKey` | mbedtls-3.4.1/library/aesce.c:207-257 | Words derived from its 256-bit key, past the substitution in the middle of a chunk |
| `StandardExamples.KeyLengths` | mbedtls-3.4.1/library/aesce.c:207-257 | The number of words of the three expanded keys |
| `DeckObjects.Deck.CreateTarotDeck` | Deck.cpp:44-63 | The loops fill the deck with the 78 cards in order, owner kept |
| `DeckObjects.Deck.AppendDeck` | Deck.cpp:89-95 | The other deck's cards follow the old ones |
| `DeckObjects.Deck.Remove` | Deck.cpp:173-179 | Every copy of the card goes, the order of the rest stays, and the result is how many went |
| `DeckObjects.Deck.RemoveDuplicates` | Deck.cpp:74-87 | The loop of removals leaves the old cards without the other deck's and counts the removed ones |
| `DeckObjects.Deck.Mid` | Deck.cpp:119-149 | A fresh deck with the requested slice; a start beyond the deck counts as zero, and what does not fit is cut off |
| `DeckObjects.Deck.At` | Deck.cpp:151-166 | The card at that position, no card beyond the end |
| `DeckObjects.Deck.Count` | Deck.cpp:189-201 | The multiplicity of the card |
| `DeckObjects.Deck.HasCard` | Deck.cpp:252-263 | Found iff the card is in the deck |
| `DeckObjects.Deck.HighestTrump` | Deck.cpp:316-331 | The loop finds the specified card |
| `DeckObjects.Deck.HighestSuit` | Deck.cpp:340-367 | The loop finds the specified card |
| `DeckObjects.Deck.HasOnlyOneOfTrump` | Deck.cpp:280-291 | Decides that test |
| `DeckObjects.Deck.AnalyzeTrumps` | Deck.cpp:752-786 | The loop accumulates the specified statistics |
| `DeckObjects.Deck.CanPlayCard` | Deck.cpp:406-506 | The loops over hand and trick decide the specified legality, which is the rule of the game |
| `DeckObjects.Deck.TestDiscard` | Deck.cpp:616-652 | The loop over the discard decides the specified validity |
| `DeckObjects.Deck.TestHandle` | Deck.cpp:577-614 | The loop decides the specified validity of a handle |
| `DeckObjects.Deck.AutoDiscard` | Deck.cpp:369-392 | The deck takes in the dog and the first discardable cards are returned in a fresh deck |
| `DeckObjects.Deck.SetCards` | Deck.cpp:678-713 | The scan for separators reads exactly the valid names of the text, in order, and returns the number of names, valid or not, modulo 256 |
| `DeckObjects.Deck.ToString` | Deck.cpp:203-221 | The loop writes the names with separators |
| `ContextObjects.TarotContext.Initialize` | TarotContext.cpp:11-24 | Bid, tricks and counters are reset, what the source leaves is left |
| `ContextObjects.TarotContext.SetHandle` | TarotContext.cpp:26-36 | The handle goes to the side of its player |
| `ContextObjects.TarotContext.ManageDogAfterBid` | TarotContext.cpp:38-60 | The dog is shown, or given to attack or defence, as the contract says |
| `ContextObjects.TarotContext.SetBid` | TarotContext.cpp:62-76 | A higher contract takes over the bid, any other answer is a pass |
| `ContextObjects.TarotContext.GetOwner` | TarotContext.cpp:157-171 | The walk around the table ends at the specified seat |
| `ContextObjects.TarotContext.SetTrick` | TarotContext.cpp:374-494 | Fields and arrays change exactly as the record's specification says, and the winner is the result |
| `ContextObjects.TarotContext.AnalyzeGame` | TarotContext.cpp:496-565 | Statistics and points change exactly as specified |
| `ContextObjects.TarotContext.LoadTricks` | TarotContext.cpp:292-318 | The loop over the saved tricks stores each and takes its cards out of the full deck |
| `ContextObjects.TarotContext.SetHeader` | TarotContext.cpp:218-284 | Taker, contract, slam, decks and first player are read as specified, missing fields included |
| `ContextObjects.TarotContext.LoadDeal` | TarotContext.cpp:286-346 | Tricks and discard are rebuilt or refused as specified |
| `ContextObjects.TarotContext.LoadFromJson` | TarotContext.cpp:204-360 | Loading changes the object as specified, failures included |
| `EngineObjects.DealGenerator.IsValid` | DealGenerator.cpp:49-68 | Only the sizes of hands and dog are examined |
| `EngineObjects.DealGenerator.CreateRandomDeal` | DealGenerator.cpp:70-104 | Each hand is its slice of the shuffled deck, the dog is the rest, and the deal is called valid iff no hand has the smallest trump alone |
| `EngineObjects.DealGenerator.Clear` | DealGenerator.cpp:255-263 | No hand and no dog is left |
| `EngineObjects.Engine.NewGame` | Engine.cpp:85-88 | Only the phase changes |
| `EngineObjects.Engine.CreateDeal` | Engine.cpp:398-480 | Hands, dog and first player are those of the generator, or of the file when its sizes fit |
| `EngineObjects.Engine.NewDeal` | Engine.cpp:90-111 | The object follows the specification the invariants are proved about |
| `EngineObjects.Engine.StartDeal` | Engine.cpp:117-145 | So does the start, and the leader is returned |
| `EngineObjects.Engine.SetDiscard` | Engine.cpp:147-166 | So does a discard, accepted or refused |
| `EngineObjects.Engine.SetHandle` | Engine.cpp:174-185 | So does a handle |
| `EngineObjects.Engine.SetCard` | Engine.cpp:187-214 | So does a card, accepted or refused |
| `EngineObjects.Engine.SetBid` | Engine.cpp:216-225 | So does a bid |
| `EngineObjects.Engine.SetKingCalled` | Engine.cpp:227-265 | So does a called king, with the search for the partner by a loop |
| `EngineObjects.Engine.GameSequence` | Engine.cpp:293-321 | So does a step of the play |
| `EngineObjects.Engine.EndOfDeal` | Engine.cpp:323-330 | So does the end of the deal |
| `EngineObjects.Engine.ManageAfterBidSequence` | Engine.cpp:332-344 | So does the end of the auction |
| `EngineObjects.Engine.BidSequence` | Engine.cpp:351-378 | So does a step of the auction |
| `EngineObjects.Engine.DiscardSequence` | Engine.cpp:380-383 | So does the request for a discard |
| `EngineObjects.Engine.IsEndOfTrick` | Engine.cpp:385-396 | The test closes a full round, counter and position included |
| `ScoreObjects.Score.NewGame` | Score.cpp:202-215 | All seats of all turns are zero and the number of turns is set |
| `ScoreObjects.Score.AddPoints` | Score.cpp:231-291 | One row of the array changes, seat by seat, as the scoring specification says |
| `ScoreObjects.Score.GetTotalPoints` | Score.cpp:293-303 | The loop sums the seat's column over the recorded deals |
| `TableObjects.PlayingTable.ResetAck` | PlayingTable.cpp:67-73 | All flags are lowered and nothing else changes |
| `TableObjects.PlayingTable.AckFromAllPlayers` | PlayingTable.cpp:45-65 | True iff every seat has its flag raised, and then the flags are lowered |
| `TableObjects.PlayingTable.GetPlayerPlace` | PlayingTable.cpp:75-87 | The last seat with the identifier, or nowhere |
| `TableObjects.PlayingTable.SendToAllPlayers` | PlayingTable.cpp:94-105 | One message addressed to every seated player |
| `TableObjects.PlayingTable.Sync` | PlayingTable.cpp:107-120 | Flags and answer are those of the barrier's specification |
| `TableObjects.PlayingTable.AddPlayer` | PlayingTable.cpp:151-185 | Seat, administrator and answer are those of the specification |
| `TableObjects.PlayingTable.RemovePlayer` | PlayingTable.cpp:187-219 | The seat is freed and the administration passes on |
| `TableObjects.PlayingTable.NewGame` | PlayingTable.cpp:555-567 | State and messages of a new game |
| `TableObjects.PlayingTable.NewDeal` | PlayingTable.cpp:580-601 | State and messages of a new deal, each hand sent to its own seat |
| `TableObjects.PlayingTable.StartDeal` | PlayingTable.cpp:603-618 | State and messages of the start of the play |
| `TableObjects.PlayingTable.SendNextBidSequence` | PlayingTable.cpp:620-673 | State and messages of the auction's next step |
| `TableObjects.PlayingTable.GameSequence` | PlayingTable.cpp:675-737 | State and messages of the play's next step |
| `TableObjects.PlayingTable.EndOfDeal` | PlayingTable.cpp:534-553 | The deal is scored and the next deal or the end of the game begins |
| `TableObjects.PlayingTable.ShowKingCall` | PlayingTable.cpp:569-578 | Flags lowered and the called king announced |
| `TableObjects.PlayingTable.Acknowledge` | PlayingTable.cpp:250-330 | The phase handler runs behind an opened barrier only, and the result says whether a deal ended |
| `TableObjects.PlayingTable.RequestNewGame` | PlayingTable.cpp:331-350 | Only the administrator may ask |
| `TableObjects.PlayingTable.ReplyBid` | PlayingTable.cpp:351-401 | A bid from the seat and in the phase awaited, and no other, is executed |
| `TableObjects.PlayingTable.Discard` | PlayingTable.cpp:402-423 | Likewise a discard |
| `TableObjects.PlayingTable.ReplyKingCall` | PlayingTable.cpp:424-449 | Likewise a called king |
| `TableObjects.PlayingTable.Handle` | PlayingTable.cpp:450-479 | Likewise a handle |
| `TableObjects.PlayingTable.PlayedCard` | PlayingTable.cpp:480-511 | Likewise a card |
| `TableObjects.PlayingTable.ExecuteRequest` | PlayingTable.cpp:239-527 | Every request changes the object, answers and reports the end of a deal as the state machine does, and the table invariant holds again afterwards |
| `BotObjects.Bot.ChooseRandomCard` | PlayerContext.cpp:131-146 | The loop returns the first accepted card of the hand |
| `BotObjects.Bot.RequestBid` | Bot.cpp:354-396 | The bid sent follows the script when it is a bid and above the highest one |
| `BotObjects.Bot.BuildDiscard` | Bot.cpp:477-526 | Hand and message follow the script's discard when it is valid, else the automatic one |
| `BotObjects.Bot.PlayCard` | PlayerContext.cpp:229-241 | The card chosen leaves the hand once, although it is removed twice |
| `BotObjects.Bot.HandleRequest` | Bot.cpp:58-352 | Every message changes the object and answers as the specification of a bot does |

## Left out

- Shuffling: the seed, the clock and the retry for a lone small trump are an arbitrary permutation of the deck, so deals the generator would reject are covered too; a deal read from a file must partition the deck and name a seated first player, because the program only checks its sizes (`EngineProofs.FirstPlayerMustSit` says what happens otherwise).
- Sockets, sessions, threads, the lobby, users and identifiers: a message is delivered to a seat as one step, in order, and requests come from non-zero identifiers. A bot is modelled from the moment it is seated; the login and the lobby before that are not.
- TableProofs.StepKeeps: excludes new games of 0 or of more than 40 deals, for which the program reads or writes outside its arrays, and new deals from a source that does not partition the deck or names no seated first player; every other field of a request is arbitrary.
- Deals.RunKeeps: runs stop before the empty bid that ends an auction without any bid, because afterwards the program indexes seats with an unset taker; the same holds for all results about runs.
- Mirror.BotsMirrorTheEngine: speaks of four players, the number a bot believes in because joining a table never sets it; the script's answers are arbitrary.
- Context.TrickWinner: asks for 3 to 5 distinct valid cards, as the engine supplies them; a trick with an unknown card is not considered.
- Scores.PartnersShare: the share of the taker is computed over reals with the program's 0.4; single-precision rounding of large scores is not modelled.
- Scores.AddPointsZeroSum: at most 40 deals, the length of the program's array, beyond which it would write out of bounds.
- Podium, tournament winner and the values announced in the EndOfDeal message.
- The distinctness of a handle's cards: the program does not check it, so a card may be named several times in one (`RuleTables.HandleIs`).
- The statistics of a hand behind a bot's own bid: its strength is a parameter, the contract that follows from it is modelled. Statistics nobody reads are dropped.
- Card points are counted in half-points, so that they are whole numbers; every value in the program is a multiple of one half.
- JsonRoundTrip.ParsePrinted: covers trees of null, booleans, strings, arrays, objects and integers within 2^53, the range in which the program's double accumulator is exact; how a double is printed is a parameter of the printer, and doubles do not round-trip; `JsonTexts.DecimalsRead` says how they are read.
- JsonRoundTrip.IntegerReadBack: is stated in exact arithmetic, where it holds for every integer; the program's accumulator bounds it to 2^53.
- JsonTexts.EveryTextIsRead: in exact arithmetic, like the two above; a text outside the grammar is refused as in the listed examples or, where the reader is more lenient (missing commas and colons, single punctuation in their place, leading zeros), read as the stack machine reads it.
- JsonObjects.StringToNumber: computes over integers and reals, so rounding and overflow of the double, the exponent and the cast are not modelled.
- JsonObjects.Parse: texts without NUL, characters from 0x80 on are not control characters; blanks at the very end of a text, after which the program reads past the terminator, are treated as the end.
- JSON objects are lists of members sorted by key, the order in which the program's map iterates; configuration files, CBOR output, deletion and replacement in trees are not modelled.
- ModuleIds.ResolveModuleId: the formatted print into the buffer is its length check and its characters; the stack of the script engine that receives the two results is the returned pair.
- Aes.AesceEncryptBlock: a vector register is a block of 16 bytes, and the C expressions on it are their meaning on bytes; loads and stores that merely reinterpret are identities.
- Ghash.MbedtlsAesceGcmMult: a register holding a polynomial is the set of its exponents; the alternative instruction sequences for other compilers are not modelled.
- KeyExpansion.AesceSetkeyEnc: a 32-bit word is its four bytes, the two assignments to the first word of a chunk are one write, and the wrapper that rejects other key sizes is left out.
- Decks, hands and handles inside the engine, the context and the table are held by value, as in the program; the deck object itself changes in place.
- A seat or trick index that the program would use out of bounds is excluded by a precondition of the method, and the invariants prove that the table never reaches one.
- Message encryption, zip files, logging, file paths and the script engine's own calls.
