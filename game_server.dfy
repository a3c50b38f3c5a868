/** The game handler of server/server.js: one match's state record and the messages that
    change it. The server's own helpers module (take, sell, isRoundOver and the bonus
    tokens) is not part of this model: the take and sell results arrive as parameters of
    the messages, `isRoundOver`, `calculateCamelBonus` and `initializeTokenStacks` are
    those of the client rules engine, and the deal is the server's deck module. The
    record is a class whose methods assign its fields; each is specified by a function
    on the record's value. */
module GameServer {
  import opened Basics
  import opened Cards
  import DeckBuild
  import ServerDeal
  import Rules

  /** A seat, `1` or `2`. */
  datatype Seat = One | Two

  /** `currentPlayer === 1 ? 2 : 1`. */
  function Other(s: Seat): (r: Seat)
    ensures r != s
  {
    if s == One then Two else One
  }

  datatype Phase = Loading | Playing | RoundOver

  datatype Winner = Tie | Won(seat: Seat)

  /** `roundResult`: `{ camelBonus, finalScores, winner }`. */
  datatype RoundResult = RoundResult(camelBonus: Rules.CamelBonus, final1: int, final2: int, winner: Winner)

  /** `selection`: the staged hand cards and a market index the handler never sets. */
  datatype Selection = Selection(hand: seq<Card>, marketIndex: Option<int>)

  const NoSelection: Selection := Selection([], None)

  /** What `message` says, up to its wording. */
  datatype Notice = Waiting | TurnOf(seatLabel: string) | Failed(error: string) | Moved(next: Seat) | RoundEnded(winner: Winner)

  /** `bonusStacks`: whatever the server's `initializeBonusTokens` and `sellGoods` return,
      keyed by stack name; `{}` before the first round. */
  type BonusMap = map<BonusKind, seq<int>>

  /** The records the server's take and sell helpers return on success. */
  datatype GoodsTaken = GoodsTaken(newMarket: seq<Card>, newDeck: seq<Card>, newHand: seq<Card>, takenCard: Card)
  datatype CamelsTaken = CamelsTaken(newMarket: seq<Card>, newDeck: seq<Card>, newCamelHerd: seq<Card>, takenCamels: nat)
  datatype SaleMade = SaleMade(score: int, tokenValues: seq<int>, bonusTokens: seq<Token>,
                               newTokenStacks: Rules.TokenStacks, newBonusStacks: BonusMap)

  /** A game message, with the randomness of `start-round` (the shuffle's swap indices and
      the bonus tokens) and the helper results of the three actions as parameters. */
  datatype GameMessage =
    | Join
    | StartRound(swaps: seq<nat>, bonusStacks: BonusMap, startingSeat: Seat, seatLabel: string)
    | ChangeActionMode(mode: Option<string>)
    | SelectMarketCard(index: int, taken: Result<GoodsTaken, string>)
    | TakeCamels(camels: Result<CamelsTaken, string>)
    | SellGoods(sold: Result<SaleMade, string>)
    | SelectHandCard(card: Card)

  /** The swap indices a shuffle of the 49-card deck can draw. */
  predicate ValidSwaps(swaps: seq<nat>)
  {
    |swaps| == 49 && forall i :: 0 <= i < |swaps| ==> swaps[i] <= i
  }

  /** The whole game-state record. */
  datatype GameState = GameState(
    phase: Phase, currentPlayer: Seat, player1: Player, player2: Player,
    market: seq<Card>, deck: seq<Card>, tokenStacks: Rules.TokenStacks, bonusStacks: BonusMap,
    actionMode: Option<string>, message: Notice, selection: Selection, roundResult: Option<RoundResult>)
  {
    function PlayerAt(seat: Seat): Player
    {
      if seat == One then player1 else player2
    }

    function WithPlayer(seat: Seat, p: Player): (r: GameState)
      ensures r.PlayerAt(seat) == p && r.PlayerAt(Other(seat)) == PlayerAt(Other(seat))
    {
      if seat == One then this.(player1 := p) else this.(player2 := p)
    }
  }

  /** `defaultPlayer()`. */
  function DefaultPlayer(): Player
  {
    Player([], [], [], 0)
  }

  /** The record `initializeGameServer` stores for a new match. */
  function InitialState(): GameState
  {
    GameState(Loading, One, DefaultPlayer(), DefaultPlayer(), [], [], map[], map[], None, Waiting, NoSelection, None)
  }

  /** `advanceTurn`: clears the staged selection and the action mode and passes the turn. */
  function TurnAdvanced(s: GameState): (r: GameState)
    ensures r.selection == NoSelection && r.actionMode == None
    ensures r.currentPlayer != s.currentPlayer && r.message == Moved(r.currentPlayer)
    ensures r.(selection := s.selection, actionMode := s.actionMode, currentPlayer := s.currentPlayer, message := s.message) == s
  {
    var next := Other(s.currentPlayer);
    s.(selection := NoSelection, actionMode := None, currentPlayer := next, message := Moved(next))
  }

  /** Two turns bring the seat back. */
  lemma AdvanceTurnTwice(s: GameState)
    ensures TurnAdvanced(TurnAdvanced(s)).currentPlayer == s.currentPlayer
  {
  }

  /** The `roundResult` `finalizeRound` computes from the two players. */
  function RoundOutcome(p1: Player, p2: Player): (r: RoundResult)
    ensures r.camelBonus == Rules.CalculateCamelBonus(p1.camelHerd, p2.camelHerd)
    ensures r.final1 - p1.score == r.camelBonus.player1 && r.final2 - p2.score == r.camelBonus.player2
    ensures r.winner == Tie <==> r.final1 == r.final2
    ensures r.winner == Won(One) <==> r.final1 > r.final2
    ensures r.winner == Won(Two) <==> r.final2 > r.final1
  {
    var bonus := Rules.CalculateCamelBonus(p1.camelHerd, p2.camelHerd);
    var f1, f2 := p1.score + bonus.player1, p2.score + bonus.player2;
    RoundResult(bonus, f1, f2, if f1 == f2 then Tie else if f1 > f2 then Won(One) else Won(Two))
  }

  /** With equal scores, the larger camel herd wins the round. */
  lemma CamelsBreakTie(p1: Player, p2: Player)
    requires p1.score == p2.score && |p1.camelHerd| != |p2.camelHerd|
    ensures RoundOutcome(p1, p2).winner == Won(if |p1.camelHerd| > |p2.camelHerd| then One else Two)
  {
  }

  /** `finalizeRound`: ends the round, records the result and overwrites both scores with
      the final ones. */
  function RoundFinalized(s: GameState): (r: GameState)
    ensures r.phase == RoundOver && r.roundResult.Some?
    ensures var o := r.roundResult.value;
      && o == RoundOutcome(s.player1, s.player2)
      && r.player1 == s.player1.(score := o.final1) && r.player2 == s.player2.(score := o.final2)
      && r.message == RoundEnded(o.winner)
    ensures r.(phase := s.phase, roundResult := s.roundResult, message := s.message,
               player1 := s.player1, player2 := s.player2) == s
  {
    var o := RoundOutcome(s.player1, s.player2);
    s.(phase := RoundOver, roundResult := Some(o), message := RoundEnded(o.winner),
       player1 := s.player1.(score := o.final1), player2 := s.player2.(score := o.final2))
  }

  predicate HasId(cards: seq<Card>, id: int)
  {
    exists i :: 0 <= i < |cards| && cards[i].id == id
  }

  /** `cards.filter(item => item.id !== id)`. */
  function WithoutId(cards: seq<Card>, id: int): (r: seq<Card>)
    ensures forall c :: c in r <==> c in cards && c.id != id
    ensures !HasId(r, id)
  {
    if cards == [] then []
    else if cards[0].id == id then WithoutId(cards[1..], id)
    else [cards[0]] + WithoutId(cards[1..], id)
  }

  lemma {:induction false} WithoutAbsentId(cards: seq<Card>, id: int)
    requires !HasId(cards, id)
    ensures WithoutId(cards, id) == cards
  {
    if cards != [] {
      assert cards[0].id != id;
      assert !HasId(cards[1..], id);
      WithoutAbsentId(cards[1..], id);
      assert cards == [cards[0]] + cards[1..];
    }
  }

  lemma {:induction false} WithoutIdAppend(cards: seq<Card>, c: Card)
    ensures WithoutId(cards + [c], c.id) == WithoutId(cards, c.id)
  {
    if cards == [] {
      assert [c][1..] == [];
    } else {
      assert (cards + [c])[0] == cards[0] && (cards + [c])[1..] == cards[1..] + [c];
      WithoutIdAppend(cards[1..], c);
    }
  }

  /** The `select-hand-card` toggle: a card whose id is staged is unstaged (every staged
      card with that id), any other card is staged at the end. */
  function Toggle(staged: seq<Card>, card: Card): (r: seq<Card>)
    ensures HasId(r, card.id) <==> !HasId(staged, card.id)
    ensures HasId(staged, card.id) ==> r == WithoutId(staged, card.id)
    ensures HasId(staged, card.id) ==> forall c :: c in r <==> c in staged && c.id != card.id
    ensures !HasId(staged, card.id) ==> |r| == |staged| + 1 && r[..|staged|] == staged && r[|staged|] == card
  {
    if HasId(staged, card.id) then WithoutId(staged, card.id)
    else
      assert (staged + [card])[|staged|] == card;
      staged + [card]
  }

  /** Selecting a card that was not staged and selecting it again restores the staging. */
  lemma ToggleTwice(staged: seq<Card>, card: Card)
    requires !HasId(staged, card.id)
    ensures Toggle(Toggle(staged, card), card) == staged
  {
    WithoutIdAppend(staged, card);
    WithoutAbsentId(staged, card.id);
  }

  /** `hand.filter(card => !selected.some(s => s.id === card.id))`. */
  function RemoveSelected(hand: seq<Card>, selected: seq<Card>): (r: seq<Card>)
    ensures forall c :: c in r <==> c in hand && !HasId(selected, c.id)
    ensures |r| <= |hand|
  {
    if hand == [] then []
    else if HasId(selected, hand[0].id) then RemoveSelected(hand[1..], selected)
    else [hand[0]] + RemoveSelected(hand[1..], selected)
  }

  /** `tokenValues.map(value => ({ type: soldType, value }))`. */
  function GoodsTokens(kind: CardType, values: seq<int>): (r: seq<Token>)
    ensures |r| == |values|
    ensures forall i :: 0 <= i < |r| ==> r[i] == Token(GoodsLabel(kind), values[i])
  {
    seq(|values|, i requires 0 <= i < |values| => Token(GoodsLabel(kind), values[i]))
  }

  /** One message case other than `start-round` on the record's value. `None` is the one
      case that throws: a successful sale with nothing staged (`selection.hand[0]`). */
  function Step(s: GameState, msg: GameMessage): (r: Option<GameState>)
    requires !msg.StartRound?
    ensures r.None? <==> msg.SellGoods? && msg.sold.Success? && s.selection.hand == []
    ensures r.Some? ==> r.value.phase == s.phase && r.value.roundResult == s.roundResult
    ensures msg.Join? ==> r == Some(s)
    ensures ((msg.SelectMarketCard? && msg.taken.Failure?) || (msg.TakeCamels? && msg.camels.Failure?)
             || (msg.SellGoods? && msg.sold.Failure?)) ==> r.Some? && r.value.(message := s.message) == s
    ensures msg.ChangeActionMode? ==>
      r == Some(s.(actionMode := if s.actionMode == msg.mode then None else msg.mode, selection := NoSelection))
    ensures msg.SelectHandCard? ==>
      r == Some(s.(selection := s.selection.(hand := Toggle(s.selection.hand, msg.card))))
    ensures ((msg.SelectMarketCard? && msg.taken.Success?) || (msg.TakeCamels? && msg.camels.Success?)
             || (msg.SellGoods? && msg.sold.Success? && s.selection.hand != [])) ==>
      r.Some? && r.value.currentPlayer == Other(s.currentPlayer) && r.value.selection == NoSelection
      && r.value.actionMode == None && r.value.PlayerAt(r.value.currentPlayer) == s.PlayerAt(Other(s.currentPlayer))
    ensures msg.SelectMarketCard? && msg.taken.Success? ==> var t, p := msg.taken.value, s.PlayerAt(s.currentPlayer);
      && r.value.market == t.newMarket && r.value.deck == t.newDeck
      && r.value.PlayerAt(s.currentPlayer) == Player(t.newHand, p.camelHerd, p.tokens, p.score)
      && r.value.tokenStacks == s.tokenStacks && r.value.bonusStacks == s.bonusStacks
    ensures msg.TakeCamels? && msg.camels.Success? ==> var t, p := msg.camels.value, s.PlayerAt(s.currentPlayer);
      && r.value.market == t.newMarket && r.value.deck == t.newDeck
      && r.value.PlayerAt(s.currentPlayer) == Player(p.hand, t.newCamelHerd, p.tokens, p.score)
      && r.value.tokenStacks == s.tokenStacks && r.value.bonusStacks == s.bonusStacks
    ensures msg.SellGoods? && msg.sold.Success? && s.selection.hand != [] ==> var t := msg.sold.value;
      && r.value.market == s.market && r.value.deck == s.deck
      && r.value.tokenStacks == t.newTokenStacks && r.value.bonusStacks == t.newBonusStacks
      && r.value.PlayerAt(s.currentPlayer).camelHerd == s.PlayerAt(s.currentPlayer).camelHerd
  {
    var seat := s.currentPlayer;
    var p := s.PlayerAt(seat);
    match msg
    case Join => Some(s)
    case ChangeActionMode(mode) =>
      Some(s.(actionMode := if s.actionMode == mode then None else mode, selection := NoSelection))
    case SelectMarketCard(_, taken) =>
      if taken.Failure? then Some(s.(message := Failed(taken.error)))
      else
        var t := taken.value;
        Some(TurnAdvanced(s.(market := t.newMarket, deck := t.newDeck).WithPlayer(seat, p.(hand := t.newHand))))
    case TakeCamels(camels) =>
      if camels.Failure? then Some(s.(message := Failed(camels.error)))
      else
        var t := camels.value;
        Some(TurnAdvanced(s.(market := t.newMarket, deck := t.newDeck).WithPlayer(seat, p.(camelHerd := t.newCamelHerd))))
    case SellGoods(sold) =>
      if sold.Failure? then Some(s.(message := Failed(sold.error)))
      else if s.selection.hand == [] then None
      else
        var t := sold.value;
        var soldType := s.selection.hand[0].kind;
        var p' := p.(hand := RemoveSelected(p.hand, s.selection.hand),
                     tokens := p.tokens + GoodsTokens(soldType, t.tokenValues) + t.bonusTokens,
                     score := p.score + t.score);
        Some(TurnAdvanced(s.(tokenStacks := t.newTokenStacks, bonusStacks := t.newBonusStacks).WithPlayer(seat, p')))
    case SelectHandCard(card) =>
      Some(s.(selection := s.selection.(hand := Toggle(s.selection.hand, card))))
  }

  /** A successful sale: the staged ids leave the seller's hand, the awarded tokens follow
      the ones the seller had, and the score grows by exactly the sale's score. */
  lemma SaleCredit(s: GameState, sale: SaleMade)
    requires s.selection.hand != []
    ensures var r := Step(s, SellGoods(Success(sale)));
      var before, after := s.PlayerAt(s.currentPlayer), r.value.PlayerAt(s.currentPlayer);
      && (forall c :: c in after.hand <==> c in before.hand && !HasId(s.selection.hand, c.id))
      && after.tokens[..|before.tokens|] == before.tokens
      && after.tokens[|before.tokens|..] == GoodsTokens(s.selection.hand[0].kind, sale.tokenValues) + sale.bonusTokens
      && after.score == before.score + sale.score
      && after.camelHerd == before.camelHerd
  {
    var r := Step(s, SellGoods(Success(sale)));
    var before, after := s.PlayerAt(s.currentPlayer), r.value.PlayerAt(s.currentPlayer);
    var added := GoodsTokens(s.selection.hand[0].kind, sale.tokenValues) + sale.bonusTokens;
    assert after.tokens == before.tokens + added;
    assert (before.tokens + added)[..|before.tokens|] == before.tokens;
    assert (before.tokens + added)[|before.tokens|..] == added;
  }

  /** What `start-round` leaves: a dealt 49-card deck, fresh token stacks, the bonus
      stacks and starting seat given, phase `playing`; selection, action mode and the last
      round's result stay as they were. */
  function RoundStart(s: GameState, setup: ServerDeal.Setup, msg: GameMessage): GameState
    requires msg.StartRound?
  {
    s.(deck := setup.deck, market := setup.market, player1 := setup.player1, player2 := setup.player2,
       tokenStacks := Rules.InitializeTokenStacks(), bonusStacks := msg.bonusStacks,
       currentPlayer := msg.startingSeat, phase := Playing, message := TurnOf(msg.seatLabel))
  }

  /** `setup` is `dealInitialCards` of `shuffled`, a shuffled `createDeck()`. */
  ghost predicate FreshDeal(shuffled: seq<Card>, setup: ServerDeal.Setup)
  {
    && |shuffled| == 49 && CountKind(shuffled, Camel) == 11
    && (forall c :: c in shuffled <==> 0 <= c.id < 49 && c.kind == DeckBuild.OrderedKind(c.id))
    && ServerDeal.SetupCards(setup) == multiset(shuffled)
    && NoCamel(setup.player1.hand) && NoCamel(setup.player2.hand)
    && AllCamels(setup.player1.camelHerd) && AllCamels(setup.player2.camelHerd)
    && |setup.player1.hand| == ServerDeal.StartingHandSize && |setup.player2.hand| == ServerDeal.StartingHandSize
    && |setup.market| == ServerDeal.MarketSize
    && setup.player1.tokens == [] && setup.player1.score == 0
    && setup.player2.tokens == [] && setup.player2.score == 0
  }

  /** `createDeck()` with the given swap indices, then `dealInitialCards` of it. The full
      deck always lets both hands reach five goods and the market five cards. */
  method DealRound(swaps: seq<nat>) returns (ghost shuffled: seq<Card>, setup: ServerDeal.Setup,
                                             ghost t1: nat, ghost t2: nat, ghost f: nat)
    requires ValidSwaps(swaps)
    ensures ServerDeal.Deals(shuffled, setup, t1, t2, f)
    ensures FreshDeal(shuffled, setup)
  {
    var shuffledDeck := DeckBuild.CreateDeck(swaps);
    setup, t1, t2, f := ServerDeal.DealInitialCards(shuffledDeck);
    shuffled := shuffledDeck;
    ServerDeal.DealLeavesDeck(shuffled, setup);
  }

  /** A fresh deal leaves cards in the deck, so the round it starts is not over. */
  lemma FreshDealNotOver(shuffled: seq<Card>, setup: ServerDeal.Setup)
    requires FreshDeal(shuffled, setup)
    ensures |setup.deck| >= 23
    ensures !Rules.IsRoundOver(setup.deck, Rules.InitializeTokenStacks())
  {
    ServerDeal.DealLeavesDeck(shuffled, setup);
    Rules.FreshRoundNotOver(setup.deck);
  }

  /** The record after dispatching `msg`, before the round-end check: `None` when the
      handler throws. */
  ghost predicate Dispatched(s: GameState, msg: GameMessage, r: Option<GameState>)
  {
    if msg.StartRound? then
      exists shuffled, setup, t1, t2, f ::
        && ServerDeal.Deals(shuffled, setup, t1, t2, f) && FreshDeal(shuffled, setup)
        && r == Some(RoundStart(s, setup, msg))
    else r == Step(s, msg)
  }

  /** The handler's closing check, on the record `d` after dispatch: finalize when the
      phase is `playing` and `isRoundOver` holds of the deck and token stacks `deck` and
      `stacks` it is given. */
  function RoundEndCheck(d: GameState, deck: seq<Card>, stacks: Rules.TokenStacks): (r: GameState)
    ensures r.phase == RoundOver <==> d.phase == RoundOver || (d.phase == Playing && Rules.IsRoundOver(deck, stacks))
    ensures r.roundResult != d.roundResult ==> r.phase == RoundOver && d.phase == Playing
    ensures !(d.phase == Playing && Rules.IsRoundOver(deck, stacks)) ==> r == d
  {
    if d.phase == Playing && Rules.IsRoundOver(deck, stacks) then RoundFinalized(d) else d
  }

  /** Every message but `start-round` keeps the phase, so after dispatch the phase is
      `playing` exactly when a round was just started or was already under way. */
  lemma DispatchedPhase(s: GameState, msg: GameMessage, r: Option<GameState>)
    requires Dispatched(s, msg, r) && r.Some?
    ensures r.value.phase == Playing <==> msg.StartRound? || s.phase == Playing
  {
  }

  /** One match's game-state record (`gameStates.get(matchId)`). */
  class MatchServer {
    var phase: Phase
    var currentPlayer: Seat
    var player1: Player
    var player2: Player
    var market: seq<Card>
    var deck: seq<Card>
    var tokenStacks: Rules.TokenStacks
    var bonusStacks: BonusMap
    var actionMode: Option<string>
    var message: Notice
    var selection: Selection
    var roundResult: Option<RoundResult>

    ghost function State(): GameState
      reads this
    {
      GameState(phase, currentPlayer, player1, player2, market, deck, tokenStacks, bonusStacks,
                actionMode, message, selection, roundResult)
    }

    /** `initializeGameServer`: the record of a new match. */
    constructor ()
      ensures State() == InitialState()
    {
      phase := Loading;
      currentPlayer := One;
      player1, player2 := DefaultPlayer(), DefaultPlayer();
      market, deck := [], [];
      tokenStacks, bonusStacks := map[], map[];
      actionMode := None;
      message := Waiting;
      selection := NoSelection;
      roundResult := None;
    }

    /** `players[seat] = p`, as the handler's writes through `playerData` do. */
    method SetPlayer(seat: Seat, p: Player)
      modifies this
      ensures State() == old(State()).WithPlayer(seat, p)
    {
      if seat == One {
        player1 := p;
      } else {
        player2 := p;
      }
    }

    method AdvanceTurn()
      modifies this
      ensures State() == TurnAdvanced(old(State()))
    {
      selection := NoSelection;
      actionMode := None;
      currentPlayer := if currentPlayer == One then Two else One;
      message := Moved(currentPlayer);
    }

    method FinalizeRound()
      modifies this
      ensures State() == RoundFinalized(old(State()))
    {
      phase := RoundOver;
      var camelBonus := Rules.CalculateCamelBonus(player1.camelHerd, player2.camelHerd);
      var final1, final2 := player1.score + camelBonus.player1, player2.score + camelBonus.player2;
      var winner := if final1 == final2 then Tie else if final1 > final2 then Won(One) else Won(Two);
      roundResult := Some(RoundResult(camelBonus, final1, final2, winner));
      message := RoundEnded(winner);
      player1 := player1.(score := final1);
      player2 := player2.(score := final2);
    }

    /** `start-round`: a new dealt deck, fresh token stacks, the given bonus stacks and
        starting seat. */
    method StartRound(msg: GameMessage)
      returns (ghost shuffled: seq<Card>, ghost setup: ServerDeal.Setup, ghost t1: nat, ghost t2: nat, ghost f: nat)
      requires msg.StartRound? && ValidSwaps(msg.swaps)
      modifies this
      ensures ServerDeal.Deals(shuffled, setup, t1, t2, f)
      ensures FreshDeal(shuffled, setup)
      ensures State() == RoundStart(old(State()), setup, msg)
    {
      var dealt;
      shuffled, dealt, t1, t2, f := DealRound(msg.swaps);
      setup := dealt;
      InstallRound(dealt, Rules.InitializeTokenStacks(), msg.bonusStacks, msg.startingSeat, msg.seatLabel);
    }

    /** The field assignments of `start-round`. */
    method InstallRound(dealt: ServerDeal.Setup, stacks: Rules.TokenStacks, bonus: BonusMap, seat: Seat, seatLabel: string)
      modifies this
      ensures State() == old(State()).(deck := dealt.deck, market := dealt.market, player1 := dealt.player1,
        player2 := dealt.player2, tokenStacks := stacks, bonusStacks := bonus, currentPlayer := seat,
        phase := Playing, message := TurnOf(seatLabel))
    {
      deck, market := dealt.deck, dealt.market;
      player1, player2 := dealt.player1, dealt.player2;
      tokenStacks, bonusStacks := stacks, bonus;
      currentPlayer := seat;
      phase := Playing;
      message := TurnOf(seatLabel);
    }

    method ChangeActionMode(mode: Option<string>)
      modifies this
      ensures State() == Step(old(State()), GameMessage.ChangeActionMode(mode)).value
    {
      actionMode := if actionMode == mode then None else mode;
      selection := NoSelection;
    }

    method SelectMarketCard(msg: GameMessage)
      requires msg.SelectMarketCard?
      modifies this
      ensures State() == Step(old(State()), msg).value
    {
      var seat := currentPlayer;
      var playerData := if seat == One then player1 else player2;
      if msg.taken.Failure? {
        message := Failed(msg.taken.error);
      } else {
        var t := msg.taken.value;
        market := t.newMarket;
        deck := t.newDeck;
        SetPlayer(seat, playerData.(hand := t.newHand));
        AdvanceTurn();
      }
    }

    method TakeCamels(msg: GameMessage)
      requires msg.TakeCamels?
      modifies this
      ensures State() == Step(old(State()), msg).value
    {
      var seat := currentPlayer;
      var playerData := if seat == One then player1 else player2;
      if msg.camels.Failure? {
        message := Failed(msg.camels.error);
      } else {
        var t := msg.camels.value;
        market := t.newMarket;
        deck := t.newDeck;
        SetPlayer(seat, playerData.(camelHerd := t.newCamelHerd));
        AdvanceTurn();
      }
    }

    /** `sell-goods`; `completed` is false when the handler throws on an empty staging. */
    method SellGoods(msg: GameMessage) returns (completed: bool)
      requires msg.SellGoods?
      modifies this
      ensures completed == Step(old(State()), msg).Some?
      ensures State() == if completed then Step(old(State()), msg).value else old(State())
    {
      var seat := currentPlayer;
      var playerData := if seat == One then player1 else player2;
      if msg.sold.Failure? {
        message := Failed(msg.sold.error);
        return true;
      }
      if selection.hand == [] {
        return false;
      }
      var t := msg.sold.value;
      var soldType := selection.hand[0].kind;
      var p := playerData.(hand := RemoveSelected(playerData.hand, selection.hand));
      p := p.(tokens := p.tokens + GoodsTokens(soldType, t.tokenValues) + t.bonusTokens);
      p := p.(score := p.score + t.score);
      SetPlayer(seat, p);
      tokenStacks := t.newTokenStacks;
      bonusStacks := t.newBonusStacks;
      AdvanceTurn();
      completed := true;
    }

    method SelectHandCard(card: Card)
      modifies this
      ensures State() == Step(old(State()), GameMessage.SelectHandCard(card)).value
    {
      var found := HasId(selection.hand, card.id);
      selection := selection.(hand := if found then WithoutId(selection.hand, card.id) else selection.hand + [card]);
    }

    /** The `switch` on the message type. */
    method Dispatch(msg: GameMessage) returns (completed: bool)
      requires msg.StartRound? ==> ValidSwaps(msg.swaps)
      modifies this
      ensures Dispatched(old(State()), msg, if completed then Some(State()) else None)
      ensures !completed ==> State() == old(State())
    {
      completed := true;
      match msg
      case Join =>
      case StartRound(_, _, _, _) =>
        ghost var shuffled, setup, t1, t2, f := StartRound(msg);
      case ChangeActionMode(mode) =>
        ChangeActionMode(mode);
      case SelectMarketCard(_, _) =>
        SelectMarketCard(msg);
      case TakeCamels(_) =>
        TakeCamels(msg);
      case SellGoods(_) =>
        completed := SellGoods(msg);
      case SelectHandCard(card) =>
        SelectHandCard(card);
    }

    /** A game message as server.js handles it: the deck and token stacks are read before
        the dispatch and the round-end check tests those values. A message that throws
        leaves the record as it was and skips the check. */
    method HandleMessage(msg: GameMessage) returns (completed: bool, ghost dispatched: GameState)
      requires msg.StartRound? ==> ValidSwaps(msg.swaps)
      modifies this
      ensures Dispatched(old(State()), msg, if completed then Some(dispatched) else None)
      ensures State() == if completed then RoundEndCheck(dispatched, old(deck), old(tokenStacks)) else old(State())
    {
      var snapshotDeck, snapshotStacks := deck, tokenStacks;
      completed := Dispatch(msg);
      dispatched := State();
      if completed && phase == Playing && Rules.IsRoundOver(snapshotDeck, snapshotStacks) {
        FinalizeRound();
      }
    }

    /** The handler with the round-end check on the deck and token stacks the dispatch
        left. */
    method HandleMessageChecked(msg: GameMessage) returns (completed: bool, ghost dispatched: GameState)
      requires msg.StartRound? ==> ValidSwaps(msg.swaps)
      modifies this
      ensures Dispatched(old(State()), msg, if completed then Some(dispatched) else None)
      ensures State() == if completed then RoundEndCheck(dispatched, dispatched.deck, dispatched.tokenStacks) else old(State())
    {
      completed := Dispatch(msg);
      dispatched := State();
      if completed && phase == Playing && Rules.IsRoundOver(deck, tokenStacks) {
        FinalizeRound();
      }
    }
  }

  /** As written, the first `start-round` of a match ends the round it starts: the check
      tests the deck read before dispatch, which is the new match's empty deck. */
  method FirstRoundAsWritten(swaps: seq<nat>, bonus: BonusMap, seat: Seat, seatLabel: string)
    returns (phase: Phase, result: Option<RoundResult>)
    requires ValidSwaps(swaps)
    ensures phase == RoundOver && result.Some?
  {
    var m := new MatchServer();
    var completed, dispatched := m.HandleMessage(StartRound(swaps, bonus, seat, seatLabel));
    phase, result := m.phase, m.roundResult;
  }

  /** With the check on the dispatched record, the first round is under way after
      `start-round`, at the starting seat, with at least 23 cards left to draw. */
  method FirstRoundChecked(swaps: seq<nat>, bonus: BonusMap, seat: Seat, seatLabel: string)
    returns (phase: Phase, current: Seat, deckSize: nat, result: Option<RoundResult>)
    requires ValidSwaps(swaps)
    ensures phase == Playing && current == seat && deckSize >= 23 && result.None?
  {
    var m := new MatchServer();
    var completed, dispatched := m.HandleMessageChecked(StartRound(swaps, bonus, seat, seatLabel));
    ghost var shuffled, setup, t1, t2, f :| ServerDeal.Deals(shuffled, setup, t1, t2, f) && FreshDeal(shuffled, setup)
      && Some(dispatched) == Some(RoundStart(InitialState(), setup, StartRound(swaps, bonus, seat, seatLabel)));
    FreshDealNotOver(shuffled, setup);
    phase, current, deckSize, result := m.phase, m.currentPlayer, |m.deck|, m.roundResult;
  }
}
