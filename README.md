# Jaipur: rules engine, deals, match handler and lobby

A Dafny model of the game logic of a two-player web version of the card game Jaipur.

## What is modelled

- **Rules engine** (`src/logic/helpers.js`):
  - taking one goods card from the market;
  - taking every camel;
  - selling goods against the per-kind token stacks and the three bonus stacks;
  - the round-end test;
  - the camel-majority bonus;
  - the fresh token stacks;
  - the display helpers: ordering a hand, and the colour and label of a card type.

  `takeGoodsCard` and `takeCamels` pop the caller's deck array in place. The model shows this with a `Pile` object whose `cards` field the methods change. `sellGoods` shifts the caller's token stack and the module-level `BONUS_TOKENS`. These are a `TokenBank` object and a `RulesEngine` object whose `bonus` field holds `BONUS_TOKENS`. Each method is proved against a function on values (`TakeGoods`, `TakeAllCamels`, `Sell`), and the properties are proved about those functions.
- **Deck construction and the two opening deals**:
  - `server/deck.js`: the 49-card deck, the Fisher–Yates shuffle, `prepareHand`, which diverts camels to the herd and redraws until five goods, and `buildStartingMarket`, which pulls up to three camels out of the deck before filling to five.
  - `src/logic/deck.js`: ten alternating pops, the replacement loops and a three-card market.

  Each loop is a `method` with its invariants. Its result is tied to `Drawn(d, t)`, the cards that `t` pops of `d` return. Conservation of cards is proved as multiset equalities.
- **Match handler** (`server/server.js:170-353`): the game-state record is a `MatchServer` class with one method per message case, plus `advanceTurn` and `finalizeRound`. Each method is specified by a function on the record's value (`Step`, `TurnAdvanced`, `RoundFinalized`, `RoundStart`). `HandleMessage` keeps the source's round-end check: the test at `server/server.js:300-305` reads the deck and token stacks captured before the dispatch (`server/server.js:192-193`).
- **Lobby** (`server/server.js:63-147`): a `LobbyServer` class holds the presence map, the current match and the instruction and ready flags. A `Connection` holds the client id of one socket. Every handler is specified by the function `Handle` (or `Closed` for a disconnect).

Randomness, the clock and id generation are parameters:
- the shuffle's swap indices `j ∈ [0, i]`;
- the two lobby coin flips (`Math.random() < 0.5`);
- `Date.now()` and `createId()`;
- the bonus stacks `initializeBonusTokens` returns.

The server imports a `server/helpers.js` that is not part of this model. Its take and sell results arrive in the game messages as parameters: an error, or the new market, deck, hand, herd, stacks and score. `isRoundOver`, `calculateCamelBonus` and `initializeTokenStacks` come from the client rules engine, which has the same call shape.

Three behaviours of the code are easy to misread as rules of the card game; the model keeps them as the code has them:
- the card that replaces a taken market card is appended at the end of the market, not put into the emptied slot;
- after `takeCamels` the market can hold camels again (`Rules.CamelsCanReturn`);
- a failed `sell-goods` keeps the staged selection.

## Model

| member | source | states |
|---|---|---|
| Cards.FiltersPartition | src/logic/helpers.js:104-111 | the camel and non-camel filters of a list together hold exactly its cards |
| Cards.DrawnConserves | server/deck.js:72 | the cards popped plus what is left of the deck are the old deck |
| Cards.PopUpTo | server/deck.js:76-78 | up to `n` pops of `deck.length ? deck.pop() : null` return the last `min(n, deck.length)` cards, last first, and leave the front |
| Cards.Pile.Pop | src/logic/helpers.js:89 | `pop()` returns the last card and removes it |
| DeckBuild.CreateOrderedDeck | server/deck.js:30-50 | the three push loops build 49 cards whose ids are their positions: 6 each of diamond, gold, silver, cloth and spice, 8 leather, 11 camels |
| DeckBuild.ShuffleDeck | server/deck.js:56-63 | for any swap indices `j <= i`, the shuffle returns a permutation of its input of the same length, and the input is untouched |
| DeckBuild.CreateDeck | server/deck.js:30-53 | the shuffled deck has 49 cards, holds exactly the cards `(id, kind)` with `id < 49` and the kind built at that position, and keeps the per-kind counts; the client's `createDeck` and `shuffleDeck` (src/logic/deck.js:30-63) are the same code |
| ServerDeal.FirstCamel | server/deck.js:125-126 | `findIndex` gives -1 or the index of a camel |
| ServerDeal.FirstCamelFinds | server/deck.js:125-126 | `findIndex` gives -1 exactly when the deck holds no camel, and otherwise no camel comes before the index |
| ServerDeal.SpliceFirstCamel | server/deck.js:124-128 | each `splice` at `findIndex` removes the next camel counted from the front, and nothing else |
| ServerDeal.StripCamelsConserves | server/deck.js:124-128 | removing the first `k` camels and keeping them loses no card |
| ServerDeal.PrepareHand | server/deck.js:74-96 | the hand is the goods among the popped cards and the herd the camels among them, in pop order; no camel is in the hand; the hand has at most 5 cards, and exactly 5 unless the deck ran out; drawing stops at the first point where 5 goods are held; cards are conserved |
| ServerDeal.PullCamels | server/deck.js:124-128 | the first loop moves exactly the first `min(3, camels)` camels, found from the front, to the market in that order, and leaves every other card in place |
| ServerDeal.BuildStartingMarket | server/deck.js:121-135 | the market is the first `min(3, camels)` camels found from the front, then cards popped from the tail; its length is `min(5, deck.length)`; cards are conserved |
| ServerDeal.DealInitialCards | server/deck.js:70-119 | the deal is the one `Deals` describes: player 1 is prepared by `prepareHand`'s pops and stop rule from the tail of a copy, then player 2 from what is left, then the market takes the first (up to three) camels from the front of the rest and fills from its tail; each hand stops drawing at its fifth good and stops short of five only when the deck is empty, so player 2 draws only after player 1 holds 5 goods; each hand holds exactly 5 goods unless the deck and the market come out empty; no hand holds a camel; every herd is all camels; deck, market, hands and herds are a permutation of the input; both players start with no tokens and score 0 |
| ServerDeal.DealLeavesDeck | server/deck.js:98-101 | dealt from the 49-card deck, at least 23 cards stay in the deck |
| ClientDeal.DealAlternately | src/logic/deck.js:73-76 | the first loop gives player 1 the 1st, 3rd, ... card popped and player 2 the 2nd, 4th, ... card, and leaves the front of the deck |
| ClientDeal.DrawnInterleaves | src/logic/deck.js:73-76 | the ten alternating pops are the two raw hands interleaved, player 1 first |
| ClientDeal.DealtConserves | src/logic/deck.js:73-76 | the two raw hands together hold exactly the cards popped |
| ClientDeal.TopUpHand | src/logic/deck.js:86-102 | a replacement loop pops from the tail, sends goods to the hand and camels to the herd, and stops at 5 goods or an empty deck; a hand of at most 5 stays at most 5 |
| ClientDeal.TopUpConserves | src/logic/deck.js:86-102 | a replacement loop only moves cards from the deck to the hand or the herd |
| ClientDeal.DrawMarket | src/logic/deck.js:105-108 | the market is exactly the next 3 pops from the tail, `undefined` once the deck is empty, with no camel forcing |
| ClientDeal.DealInitialCards | src/logic/deck.js:66-126 | alternate dealing, then player 1's replacements before player 2's, then the 3-pop market; each replacement loop pops only while its player holds fewer than 5 goods and stops short of 5 only on an empty deck; no hand holds a camel, every drawn camel is in its player's herd, hands have at most 5 cards, and both scores are 0 |
| ClientDeal.ClientDealConserves | src/logic/deck.js:66-126 | for any number of replacement draws, deck, market, hands and herds are together a permutation of the input |
| Rules.IsRoundOver | src/logic/helpers.js:4-6 | the round is over exactly when the deck is empty or three different goods kinds have empty token stacks (counting the empty stacks and finding three of them agree, `Rules.EmptyStacksAtLeastThree`); `RoundOverMonotone` and `FreshRoundNotOver` below are its partners |
| Rules.EmptyStacksAtLeastThree | src/logic/helpers.js:5 | the filter counts at least three empty stacks exactly when three different kinds have empty stacks |
| Rules.RoundOverMonotone | src/logic/helpers.js:4-6 | once `isRoundOver` holds, popping the deck and shortening stacks keeps it true |
| Rules.InitializeTokenStacks | src/logic/helpers.js:130-136 | one stack per goods kind, each a copy of its TOKEN_VALUES, none empty |
| Rules.FreshRoundNotOver | src/logic/helpers.js:4-6 | with fresh token stacks and cards in the deck, the round is not over |
| Rules.CalculateCamelBonus | src/logic/helpers.js:9-20 | 5 to the strictly larger herd and 0 to the other, 0/0 on a tie, and never both positive |
| Rules.CamelBonusSymmetric | src/logic/helpers.js:9-20 | swapping the herds swaps the bonuses |
| Rules.Sell | src/logic/helpers.js:23-71 | the error is `CannotSellCamels`, `BelowMinimum` or `NoTokensLeft` exactly for its own case, checked in that order; error exactly when the first card is a camel, the count is below the kind's minimum (`MinRequired`: 2 for diamond, gold, silver, else 1) or that kind's stack is empty, and then nothing changes; otherwise exactly one token leaves the front of that kind's stack and no other stack changes; a bonus is paid exactly when the count picks a stack (`BonusStackFor`: `three` for 3, `four` for 4, `five` for 5 or more) and that stack is non-empty; the bonus token is tagged with that stack and worth its front value, that stack loses its front and the other two are unchanged, and with no bonus all three are unchanged; the score is the token plus the bonus |
| Rules.SellKeepsRoundOver | src/logic/helpers.js:44 | a sale never turns an ended round back on |
| Rules.TokenValuesNonIncreasing | src/logic/deck.js:13-20 | every TOKEN_VALUES stack (the constant `Cards.TokenValues`) is in non-increasing order |
| Rules.ShiftKeepsTokenValues | src/logic/helpers.js:44 | shifting a stack that is what is left of TOKEN_VALUES leaves such a stack, and no remaining token beats the shifted one |
| Rules.SellPaysTopToken | src/logic/helpers.js:39-45 | stacks that are what is left of TOKEN_VALUES stay so after a sale, and the sale pays the most valuable token of its kind |
| Rules.TokenBank.Shift | src/logic/helpers.js:44 | `tokens.shift()` returns the front token and removes it from that kind's stack only |
| Rules.RulesEngine.constructor | src/logic/deck.js:23-27 | the module's BONUS_TOKENS start as declared (the constant `Cards.InitialBonus`: three 3, 2, 1; four 6, 5, 4; five 10, 9, 8) |
| Rules.RulesEngine.ShiftBonus | src/logic/helpers.js:50-61 | `BONUS_TOKENS[b].shift()` returns the front bonus and removes it from that stack only |
| Rules.RulesEngine.SellGoods | src/logic/helpers.js:23-71 | the in-place sale returns the result `Sell` describes and leaves the token stacks and BONUS_TOKENS as `Sell` says |
| Rules.TakeGoods | src/logic/helpers.js:74-100 | error for an index outside the market or a camel at the index, and then the deck is untouched; otherwise the new market is the old one minus that index, followed by the deck's last card if there is one; the deck loses exactly that card; market length is kept when the deck was non-empty and drops by one otherwise; the hand gains the taken card at the end |
| Rules.TakeGoodsConserves | src/logic/helpers.js:84-99 | market, deck and hand hold the same cards before and after |
| Rules.TakeGoodsCard | src/logic/helpers.js:74-100 | the in-place take returns `TakeGoods`'s result and pops the caller's deck as `TakeGoods` says |
| Rules.TakeAllCamels | src/logic/helpers.js:103-127 | error exactly when the market holds no camel, and then the deck is untouched; otherwise the market is the old non-camels in order, then `min(k, deck.length)` cards from the deck tail; the herd grows by exactly the `k` camels taken |
| Rules.TakeAllCamelsConserves | src/logic/helpers.js:103-127 | market, deck and herd hold the same cards before and after |
| Rules.CamelsCanReturn | src/logic/helpers.js:115-117 | a refill can bring a camel back into the market |
| Rules.TakeCamels | src/logic/helpers.js:103-127 | the refill loop returns `TakeAllCamels`'s result and pops the caller's deck as it says |
| Display.RankInjective | src/logic/helpers.js:140-143 | the comparator puts two cards level exactly when they have the same kind |
| Display.SortCards | src/logic/helpers.js:139-144 | the sorted hand is a permutation of the input |
| Display.SortCardsSorted | src/logic/helpers.js:139-144 | the sorted hand is in rank order, camels (rank -1) first |
| Display.SortCardsStable | src/logic/helpers.js:139-144 | the cards of each kind keep their input order |
| Display.SortCardsUnique | src/logic/helpers.js:139-144 | any rank-ordered list that keeps each kind's order is exactly the sorted hand |
| Display.CardColor | src/logic/helpers.js:147-158 | the grey default is returned exactly for strings that name no card type |
| Display.CardColorsDistinct | src/logic/helpers.js:148-156 | different card types get different colours |
| Display.CardLabel | src/logic/helpers.js:161-163 | same length, the first character upper-cased, the rest unchanged |
| Display.CardLabelIdempotent | src/logic/helpers.js:161-163 | labelling a label changes nothing |
| Display.CardLabelCapital | src/logic/helpers.js:161-163 | every card type's label starts with a capital letter |
| GameServer.Other | server/server.js:319 | the other seat is never the current one |
| GameServer.TurnAdvanced | server/server.js:316-321 | clears the selection and the action mode, flips the seat and changes nothing else |
| GameServer.AdvanceTurnTwice | server/server.js:319 | two turns restore the seat |
| GameServer.RoundOutcome | server/server.js:325-339 | the final score is score plus camel bonus for each seat; the result is `tie` exactly when the final scores are equal, and otherwise the larger seat wins |
| GameServer.CamelsBreakTie | server/server.js:325-338 | with equal scores and unequal herds, the larger herd wins |
| GameServer.RoundFinalized | server/server.js:323-346 | sets phase `roundOver`, records the result, overwrites both scores with the final scores, and changes nothing else |
| GameServer.WithoutId | server/server.js:295 | the filter keeps exactly the cards with another id |
| GameServer.Toggle | server/server.js:290-296 | after the toggle the card's id is staged exactly when it was not before; a staged id is removed with every card bearing it (the result is `WithoutId` of the staging) and the other staged cards stay; an unstaged card is appended after the unchanged staging |
| GameServer.ToggleTwice | server/server.js:290-296 | selecting an unstaged card twice restores the staging |
| GameServer.RemoveSelected | server/server.js:264-269 | the hand keeps exactly the cards whose id is not staged |
| GameServer.Step | server/server.js:196-298 | every case keeps the phase; a failed take or sale changes only the message; `change-action-mode` sets the mode to null when it equals the current one, else to the payload, and clears the selection; `select-hand-card` touches only the staged cards; a successful action passes the turn; a successful take installs the helper's new market and deck and the mover's new hand (goods) or herd (camels), and keeps the mover's other fields and all token and bonus stacks; a successful sale installs the helper's new token and bonus stacks and keeps the market, the deck and the seller's herd; a successful sale with nothing staged throws |
| GameServer.SaleCredit | server/server.js:262-278 | a sale removes the staged ids from the seller's hand, appends the awarded tokens after the old ones, and adds exactly the sale's score |
| GameServer.DealRound | server/server.js:201-202 | `dealInitialCards(createDeck())` is the deal `ServerDeal.Deals` describes of a shuffled 49-card deck; it conserves the cards, keeps camels out of the hands, and always gives both players five goods and the market five cards |
| GameServer.FreshDealNotOver | server/server.js:201-209 | after a fresh deal at least 23 cards stay in the deck, and the round is not over |
| GameServer.RoundEndCheck | server/server.js:300-305 | the round ends exactly when the phase is `playing` and `isRoundOver` holds of the deck and stacks it is given; otherwise nothing changes |
| GameServer.DispatchedPhase | server/server.js:196-298 | after dispatch the phase is `playing` exactly when a round was just started or was already under way |
| GameServer.MatchServer.constructor | server/server.js:172-184 | a new match is `InitialState`: `loading`, at seat 1, with two `defaultPlayer()` records (`DefaultPlayer`, server/server.js:348-353: no cards, no tokens, score 0), empty market, deck and stacks, no selection and no round result |
| GameServer.MatchServer.SetPlayer | server/server.js:194 | a write through `playerData` changes the current seat's player only |
| GameServer.MatchServer.AdvanceTurn | server/server.js:316-321 | the record becomes `TurnAdvanced` of the old one |
| GameServer.MatchServer.FinalizeRound | server/server.js:323-346 | the record becomes `RoundFinalized` of the old one |
| GameServer.MatchServer.StartRound | server/server.js:200-211 | the record becomes `RoundStart` of the old one: the dealt deck, market and players of a deal `ServerDeal.Deals` describes, fresh token stacks, the given bonus stacks and starting seat, phase `playing`; selection, action mode and the last result stay |
| GameServer.MatchServer.InstallRound | server/server.js:203-210 | the assignments of `start-round`, and nothing else |
| GameServer.MatchServer.ChangeActionMode | server/server.js:212-216 | the record becomes `Step` of the old one |
| GameServer.MatchServer.SelectMarketCard | server/server.js:217-238 | the record becomes `Step` of the old one |
| GameServer.MatchServer.TakeCamels | server/server.js:239-252 | the record becomes `Step` of the old one |
| GameServer.MatchServer.SellGoods | server/server.js:253-288 | the record becomes `Step` of the old one; on the throwing case (a successful sale with nothing staged) no field has been written |
| GameServer.MatchServer.SelectHandCard | server/server.js:289-297 | the record becomes `Step` of the old one |
| GameServer.MatchServer.Dispatch | server/server.js:196-298 | the `switch` does what `Step` says, or for `start-round` what `RoundStart` says of a deal `ServerDeal.Deals` describes, and nothing when it throws |
| GameServer.MatchServer.HandleMessage | server/server.js:189-305 | the dispatch is as `Dispatch` states (a `start-round` deal is one `ServerDeal.Deals` describes); then the round-end check tests the deck and token stacks read before the dispatch |
| GameServer.MatchServer.HandleMessageChecked | server/server.js:300-305 | the dispatch is as `Dispatch` states; then the round-end check on the deck and token stacks the dispatch left |
| GameServer.FirstRoundAsWritten | server/server.js:192-193 | as written, the first `start-round` of a match ends its round at once |
| GameServer.FirstRoundChecked | server/server.js:300-305 | checked after dispatch, the first round is under way at the starting seat, with at least 23 cards to draw and no result |
| Lobby.FirstSeat | server/server.js:107 | the coin flip `Math.random() < 0.5 ? 1 : 2` (also at server/server.js:125) gives seat 1 or 2 |
| Lobby.Seats | server/server.js:102-105 | the seat map has the inviter's and the invitee's keys; for two different keys the seats are a permutation of {1, 2} |
| Lobby.Handle | server/server.js:64-130 | `identify` sets the entry under the sent id to that id, name and time; `update-presence` acts only for a truthy client id, sets name and time and keeps the entry's id (none for a new entry); both leave every other entry, the match and the flags alone; `invite-player` opens a pending match with the given id and time, the sender and the target as players and no seats or first seat, and resets ack and ready; `decline-invite` clears the match and keeps the flags; `accept-invite` acts only for the invitee and then keeps the match's id, time and players, sets `Seats` and a first seat from the two coin flips, activates the match and keeps the flags; `acknowledge-instructions` sets the sender's flag and changes no other entry, the match or the ready flags; `toggle-ready` negates the sender's flag and changes no other entry, the match or the acks; `mark-match-in-game` only sets an existing match's status; `request-rematch` on an existing match only sets it active with a first seat of 1 or 2, and resets ack and ready; no message but the first two touches presence |
| Lobby.Closed | server/server.js:135-147 | for a truthy client id that client's presence entry goes and every other entry keeps its key and value, and the match is cleared exactly when the client is one of its players; otherwise nothing changes |
| Lobby.AcceptSeatsBoth | server/server.js:100-109 | an accepted match between two different ids gives them seats 1 and 2, one each |
| Lobby.AcceptOnlyByInvitee | server/server.js:101 | `accept-invite` changes nothing unless its sender is the invitee |
| Lobby.ToggleReadyTwice | server/server.js:114-116 | two toggles restore the sender's ready flag as read |
| Lobby.InviteResetsFlags | server/server.js:84-96 | after an invite nobody has acknowledged or is ready |
| Lobby.CloseClearsMatch | server/server.js:137-144 | a disconnecting match player clears the match; anyone else leaves it |
| Lobby.Connection.constructor | server/server.js:61 | a new connection has no client id |
| Lobby.LobbyServer.constructor | server/server.js:21-26 | the lobby starts empty, with no match |
| Lobby.LobbyServer.Identify | server/server.js:67-74 | the connection takes the id, and the lobby becomes `Handle` of the old one |
| Lobby.LobbyServer.UpdatePresence | server/server.js:75-83 | the lobby becomes `Handle` of the old one |
| Lobby.LobbyServer.InvitePlayer | server/server.js:84-96 | the lobby becomes `Handle` of the old one |
| Lobby.LobbyServer.DeclineInvite | server/server.js:97-99 | the match is cleared and nothing else changes |
| Lobby.LobbyServer.AcceptInvite | server/server.js:100-110 | the lobby becomes `Handle` of the old one |
| Lobby.LobbyServer.AcknowledgeInstructions | server/server.js:111-113 | the lobby becomes `Handle` of the old one |
| Lobby.LobbyServer.ToggleReady | server/server.js:114-116 | the lobby becomes `Handle` of the old one |
| Lobby.LobbyServer.MarkMatchInGame | server/server.js:117-121 | the lobby becomes `Handle` of the old one |
| Lobby.LobbyServer.RequestRematch | server/server.js:122-129 | the lobby becomes `Handle` of the old one |
| Lobby.LobbyServer.HandleMessage | server/server.js:64-133 | the `switch` does what `Handle` says, and only `identify` changes the connection's id |
| Lobby.LobbyServer.Close | server/server.js:135-147 | the lobby becomes `Closed` of the old one |

## Left out

- Sockets, HTTP upgrade routing, JSON parsing and the `broadcast…` functions (`server/server.js:1-57, 150-168, 355-357`) are I/O and not modelled.
- The text of every status message is not modelled. The model keeps only which kind of message it is (`Notice`) and leaves the error strings of the server helpers opaque.
- `Math.random`, `Date.now` and `crypto.randomUUID` are message parameters. The shuffle takes its swap indices `j ∈ [0, i]` as an argument.
- `server/helpers.js`, which the server actually imports, is not part of this model. Its take and sell results are parameters of the game messages, so no hand limit and no multi-token sale is assumed. The `bonusStacks` it initialises are a parameter of `start-round`.
- The client's `createDeck`/`shuffleDeck` are the same text as the server's, so `DeckBuild` models both.
- GameServer.MatchServer.HandleMessage: the snapshot of the deck and token stacks is taken as values. In JavaScript it is the same array object as the record's, so a helper that popped or shifted it in place would show through. Only `start-round` replaces the arrays, and there the snapshot is the old array, as modelled.
- GameServer.MatchServer.StartRound: the `startingSeat` payload is a seat 1 or 2. Any other payload value is not modelled.
- ClientDeal.DealInitialCards: requires at least ten cards, because the source reads `card.type` of each of the first ten pops and throws on a shorter deck. Market slots popped from an empty deck are `undefined` and are modelled as `None`.
- Display.CardLabel: `toUpperCase` is modelled for the ASCII letters only.
- Lobby: client ids are strings or `null`. An `undefined` id, or an id of another type, is not modelled. An `undefined` target id is modelled like `null`. A client id that names a member every JavaScript object inherits (`toString`, `constructor`, `__proto__` and the like) reads that member from `presence`, `ready` or `instructionsAck` before it is set, and `__proto__` cannot be set as a key at all; the model treats such ids like any other key.
- Display.CardColor: a type name is looked up in an object literal, so a string naming a member every JavaScript object inherits (`toString`, `constructor`, `__proto__`, `hasOwnProperty` and the like) yields that truthy member and not the grey default. The model's `ensures` promises grey for every string that names no card type, which holds only for strings that are not such member names.
- GameServer.MatchServer.SellGoods: a successful sale with nothing staged throws inside the socket's `message` listener. Nothing catches it, so in Node it is an uncaught exception that ends the server process. The model reports the throw as `completed == false` and leaves the record as it was; the end of the process is not modelled. `Dispatch` and `HandleMessage` report the same case the same way.
- Rules.Sell: requires a non-empty selection (`cards[0]` is read unchecked) and, for a goods kind that passes the first two checks, a stack for that kind, because reading `.length` of a missing stack throws.

## Findings

| source | as written | input that shows it | evidently intended | confidence | as-written member | corrected member |
|---|---|---|---|---|---|---|
| server/server.js:300-305 | the round-end check tests `deck` and `tokenStacks` read at `server/server.js:192-193`, before `start-round` replaced them | the first `start-round` of a new match: the deck read before dispatch is the initial `[]`, so `isRoundOver` holds and `finalizeRound` runs at once | the check tests the record after dispatch, so a freshly dealt round (at least 23 cards in the deck) goes on | not executed | GameServer.FirstRoundAsWritten | GameServer.FirstRoundChecked |
