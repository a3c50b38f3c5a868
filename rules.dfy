/** The client's rules engine (src/logic/helpers.js): the round-end test, the camel
    majority bonus, the three player actions and the fresh token stacks. `sellGoods`
    shifts the caller's token stack and the module-level BONUS_TOKENS in place, and the
    two take actions pop the caller's deck in place; those three are methods over objects,
    each specified by a function of the values it starts from. */
module Rules {
  import opened Basics
  import opened Cards

  /** A `tokenStacks` object: the token values left for each goods kind, front first. */
  type TokenStacks = map<CardType, seq<int>>

  /** The kinds whose stack is empty: `Object.values(tokenStacks).filter(s => s.length === 0)`. */
  function EmptyStacks(stacks: TokenStacks): set<CardType>
  {
    set k | k in stacks && stacks[k] == []
  }

  /** Three different kinds whose stacks are all empty. */
  predicate ThreeEmpty(stacks: TokenStacks, a: CardType, b: CardType, c: CardType)
  {
    && a in stacks && b in stacks && c in stacks
    && a != b && a != c && b != c
    && stacks[a] == [] && stacks[b] == [] && stacks[c] == []
  }

  /** Counting the empty stacks and finding three empty ones agree. */
  lemma EmptyStacksAtLeastThree(stacks: TokenStacks)
    ensures |EmptyStacks(stacks)| >= 3 <==> exists a, b, c :: ThreeEmpty(stacks, a, b, c)
  {
    var e := EmptyStacks(stacks);
    if |e| >= 3 {
      var a :| a in e;
      assert |e - {a}| == |e| - 1;
      var b :| b in e - {a};
      assert |e - {a} - {b}| == |e| - 2;
      assert e - {a} - {b} == e - {a, b};
      var c :| c in e - {a, b};
      assert ThreeEmpty(stacks, a, b, c);
    }
    if exists a, b, c :: ThreeEmpty(stacks, a, b, c) {
      var a, b, c :| ThreeEmpty(stacks, a, b, c);
      SubsetCard({a, b, c}, e);
      assert |{a, b, c}| == 3;
    }
  }

  /** `isRoundOver`: the deck is empty or at least three token stacks are. */
  function IsRoundOver(deck: seq<Card>, stacks: TokenStacks): (over: bool)
    ensures over <==> deck == [] || exists a, b, c :: ThreeEmpty(stacks, a, b, c)
  {
    EmptyStacksAtLeastThree(stacks);
    |deck| == 0 || |EmptyStacks(stacks)| >= 3
  }

  /** `stacks2` is what playing on from `stacks` can leave: the same kinds, no stack longer. */
  predicate Depletes(stacks: TokenStacks, stacks2: TokenStacks)
  {
    stacks2.Keys == stacks.Keys && forall k :: k in stacks ==> |stacks2[k]| <= |stacks[k]|
  }

  lemma {:induction false} SubsetCard(a: set<CardType>, b: set<CardType>)
    requires a <= b
    ensures |a| <= |b|
  {
    if a != {} {
      var x :| x in a;
      SubsetCard(a - {x}, b - {x});
    }
  }

  /** Once the round is over it stays over: popping the deck and shifting token stacks
      can only add empty stacks. */
  lemma RoundOverMonotone(deck: seq<Card>, stacks: TokenStacks, deck2: seq<Card>, stacks2: TokenStacks)
    requires |deck2| <= |deck| && Depletes(stacks, stacks2)
    requires IsRoundOver(deck, stacks)
    ensures IsRoundOver(deck2, stacks2)
  {
    SubsetCard(EmptyStacks(stacks), EmptyStacks(stacks2));
  }

  /** `initializeTokenStacks`: a copy of TOKEN_VALUES, one stack per goods kind. */
  function InitializeTokenStacks(): (r: TokenStacks)
    ensures r.Keys == GoodsKinds
    ensures forall k :: k in r ==> r[k] == TokenValues(k)
    ensures EmptyStacks(r) == {}
  {
    map k | k in GoodsKinds :: TokenValues(k)
  }

  /** A freshly dealt round with cards left in the deck is not over. */
  lemma FreshRoundNotOver(deck: seq<Card>)
    requires deck != []
    ensures !IsRoundOver(deck, InitializeTokenStacks())
  {
  }

  /** The result `{ player1, player2 }` of `calculateCamelBonus`. */
  datatype CamelBonus = CamelBonus(player1: int, player2: int)

  /** `calculateCamelBonus`: 5 points to the strictly larger herd, nothing on a tie. */
  function CalculateCamelBonus(herd1: seq<Card>, herd2: seq<Card>): (b: CamelBonus)
    ensures b.player1 == 5 <==> |herd1| > |herd2|
    ensures b.player2 == 5 <==> |herd2| > |herd1|
    ensures b.player1 != 5 ==> b.player1 == 0
    ensures b.player2 != 5 ==> b.player2 == 0
    ensures b.player1 == 0 || b.player2 == 0
  {
    if |herd1| > |herd2| then CamelBonus(5, 0)
    else if |herd2| > |herd1| then CamelBonus(0, 5)
    else CamelBonus(0, 0)
  }

  /** Swapping the herds swaps the bonuses. */
  lemma CamelBonusSymmetric(herd1: seq<Card>, herd2: seq<Card>)
    ensures var b := CalculateCamelBonus(herd1, herd2);
      CalculateCamelBonus(herd2, herd1) == CamelBonus(b.player2, b.player1)
  {
  }

  // ---------------------------------------------------------------- sellGoods

  /** The three `{ error }` results of `sellGoods`; the message texts are not modelled. */
  datatype SellError = CannotSellCamels | BelowMinimum(kind: CardType, minRequired: nat) | NoTokensLeft(kind: CardType)

  /** `{ score, tokenValue, bonusTokens }`; `newTokenStacks` is the caller's own object. */
  datatype Sale = Sale(score: int, tokenValue: int, bonusTokens: seq<Token>)

  /** What `sellGoods` returns, and the token stacks and BONUS_TOKENS it leaves behind. */
  datatype SellOutcome = SellOutcome(result: Result<Sale, SellError>, stacks: TokenStacks, bonus: BonusStacks)

  /** Diamonds, gold and silver sell by two at least; the other goods by one. */
  function MinRequired(k: CardType): nat
  {
    if k == Diamond || k == Gold || k == Silver then 2 else 1
  }

  /** The bonus stack a sale of `count` cards draws from, if any. */
  function BonusStackFor(count: nat): Option<BonusKind>
  {
    if count == 3 then Some(Three)
    else if count == 4 then Some(Four)
    else if count >= 5 then Some(Five)
    else None
  }

  /** `sellGoods` reads `tokenStacks[cardType]` only once the first two checks pass; the
      stack must be there then (reading `.length` of `undefined` throws). */
  predicate StackPresent(cards: seq<Card>, stacks: TokenStacks)
    requires cards != []
  {
    cards[0].kind == Camel || |cards| < MinRequired(cards[0].kind) || cards[0].kind in stacks
  }

  /** `sellGoods` on values. Only the first card's kind is looked at, and a successful sale
      takes exactly one token from that kind's stack whatever the number of cards sold. */
  function Sell(cards: seq<Card>, stacks: TokenStacks, bonus: BonusStacks): (o: SellOutcome)
    requires cards != [] && StackPresent(cards, stacks)
    ensures o.result.Failure? <==>
      cards[0].kind == Camel || |cards| < MinRequired(cards[0].kind) || stacks[cards[0].kind] == []
    ensures o.result == Failure(CannotSellCamels) <==> cards[0].kind == Camel
    ensures o.result == Failure(BelowMinimum(cards[0].kind, MinRequired(cards[0].kind))) <==>
      cards[0].kind != Camel && |cards| < MinRequired(cards[0].kind)
    ensures o.result == Failure(NoTokensLeft(cards[0].kind)) <==>
      cards[0].kind != Camel && |cards| >= MinRequired(cards[0].kind) && stacks[cards[0].kind] == []
    ensures o.result.Failure? ==> o.stacks == stacks && o.bonus == bonus
    ensures o.result.Success? ==> var k, s := cards[0].kind, o.result.value;
      && o.stacks.Keys == stacks.Keys
      && stacks[k] == [s.tokenValue] + o.stacks[k]
      && (forall j :: j in stacks && j != k ==> o.stacks[j] == stacks[j])
      && |s.bonusTokens| <= 1
      && s.score == s.tokenValue + (if s.bonusTokens == [] then 0 else s.bonusTokens[0].value)
      && (s.bonusTokens != [] <==> BonusStackFor(|cards|).Some? && bonus.Get(BonusStackFor(|cards|).value) != [])
      && (s.bonusTokens != [] ==> var b := BonusStackFor(|cards|).value;
            && s.bonusTokens == [Token(BonusLabel(b), bonus.Get(b)[0])]
            && o.bonus.Get(b) == bonus.Get(b)[1..]
            && (forall b' :: b' != b ==> o.bonus.Get(b') == bonus.Get(b')))
      && (s.bonusTokens == [] ==> o.bonus == bonus)
  {
    var kind := cards[0].kind;
    if kind == Camel then SellOutcome(Failure(CannotSellCamels), stacks, bonus)
    else if |cards| < MinRequired(kind) then SellOutcome(Failure(BelowMinimum(kind, MinRequired(kind))), stacks, bonus)
    else if stacks[kind] == [] then SellOutcome(Failure(NoTokensLeft(kind)), stacks, bonus)
    else
      var tokenValue := stacks[kind][0];
      var left := stacks[kind := stacks[kind][1..]];
      var b := BonusStackFor(|cards|);
      if b.Some? && bonus.Get(b.value) != [] then
        var v := bonus.Get(b.value)[0];
        SellOutcome(Success(Sale(tokenValue + v, tokenValue, [Token(BonusLabel(b.value), v)])), left, bonus.Shift(b.value))
      else
        SellOutcome(Success(Sale(tokenValue, tokenValue, [])), left, bonus)
  }

  /** A sale only shortens token stacks, so it never turns an ended round back on. */
  lemma SellKeepsRoundOver(deck: seq<Card>, cards: seq<Card>, stacks: TokenStacks, bonus: BonusStacks)
    requires cards != [] && StackPresent(cards, stacks)
    requires IsRoundOver(deck, stacks)
    ensures IsRoundOver(deck, Sell(cards, stacks, bonus).stacks)
  {
    var o := Sell(cards, stacks, bonus);
    if o.result.Success? {
      var k := cards[0].kind;
      assert |o.stacks[k]| < |stacks[k]|;
    }
    RoundOverMonotone(deck, stacks, deck, o.stacks);
  }

  predicate NonIncreasing(s: seq<int>)
  {
    forall i, j :: 0 <= i < j < |s| ==> s[i] >= s[j]
  }

  /** Token stacks part-way through a round: every stack is what is left of its
      TOKEN_VALUES list after shifting some tokens off the front. */
  predicate FromTokenValues(stacks: TokenStacks)
  {
    forall k :: k in stacks ==> Remnant(k, stacks[k])
  }

  /** `s` is what is left of kind `k`'s TOKEN_VALUES list after shifting some tokens off. */
  predicate Remnant(k: CardType, s: seq<int>)
  {
    k != Camel && |s| <= |TokenValues(k)| && s == TokenValues(k)[|TokenValues(k)| - |s|..]
  }

  lemma TokenValuesNonIncreasing(k: CardType)
    requires k != Camel
    ensures NonIncreasing(TokenValues(k))
  {
  }

  /** Shifting the front of a non-increasing list's suffix: what is left is a shorter
      suffix, and the shifted value bounds it. */
  lemma ShiftSuffix(t: seq<int>, s: seq<int>)
    requires NonIncreasing(t) && s != [] && |s| <= |t| && s == t[|t| - |s|..]
    ensures s[1..] == t[|t| - |s[1..]|..]
    ensures forall v :: v in s[1..] ==> v <= s[0]
  {
    forall v | v in s[1..] ensures v <= s[0] {
      var i :| 0 <= i < |s[1..]| && s[1..][i] == v;
      assert v == t[|t| - |s| + 1 + i] && s[0] == t[|t| - |s|];
    }
  }

  /** Shifting one stack of stacks drawn from TOKEN_VALUES leaves stacks drawn from
      TOKEN_VALUES, and no token left on that stack beats the shifted one. */
  lemma ShiftKeepsTokenValues(stacks: TokenStacks, k: CardType)
    requires FromTokenValues(stacks) && k in stacks && stacks[k] != []
    ensures FromTokenValues(stacks[k := stacks[k][1..]])
    ensures forall v :: v in stacks[k][1..] ==> v <= stacks[k][0]
  {
    var t, s := TokenValues(k), stacks[k];
    TokenValuesNonIncreasing(k);
    ShiftSuffix(t, s);
    assert Remnant(k, s[1..]);
    var r := stacks[k := s[1..]];
    forall j | j in r
      ensures Remnant(j, r[j])
    {
      if j != k {
        assert r[j] == stacks[j];
      }
    }
  }

  /** A sale keeps the stacks within TOKEN_VALUES, and pays the most valuable token left
      of that kind: each remaining one is worth no more. */
  lemma SellPaysTopToken(cards: seq<Card>, stacks: TokenStacks, bonus: BonusStacks)
    requires cards != [] && StackPresent(cards, stacks)
    requires FromTokenValues(stacks)
    ensures var o := Sell(cards, stacks, bonus);
      && FromTokenValues(o.stacks)
      && (o.result.Success? ==> forall v :: v in o.stacks[cards[0].kind] ==> v <= o.result.value.tokenValue)
  {
    var o := Sell(cards, stacks, bonus);
    if o.result.Success? {
      var k := cards[0].kind;
      assert o.stacks == stacks[k := stacks[k][1..]];
      ShiftKeepsTokenValues(stacks, k);
    }
  }

  /** The `tokenStacks` object a caller hands to `sellGoods`, whose arrays it shifts. */
  class TokenBank {
    var stacks: TokenStacks

    constructor (stacks: TokenStacks)
      ensures this.stacks == stacks
    {
      this.stacks := stacks;
    }

    /** `tokenStacks[k].shift()` on a non-empty stack. */
    method Shift(k: CardType) returns (v: int)
      requires k in stacks && stacks[k] != []
      modifies this
      ensures v == old(stacks)[k][0]
      ensures stacks == old(stacks)[k := old(stacks)[k][1..]]
    {
      v := stacks[k][0];
      stacks := stacks[k := stacks[k][1..]];
    }
  }

  /** The helpers module as an object: its module-level BONUS_TOKENS is the one piece of
      state it keeps between calls. */
  class RulesEngine {
    var bonus: BonusStacks

    /** Module load: BONUS_TOKENS as imported from the deck module. */
    constructor ()
      ensures bonus == InitialBonus
    {
      bonus := InitialBonus;
    }

    /** `BONUS_TOKENS[b].shift()` on a non-empty stack. */
    method ShiftBonus(b: BonusKind) returns (v: int)
      requires bonus.Get(b) != []
      modifies this
      ensures v == old(bonus).Get(b)[0]
      ensures bonus == old(bonus).Shift(b)
    {
      v := bonus.Get(b)[0];
      bonus := bonus.Shift(b);
    }

    /** `sellGoods(cards, tokenStacks)`: shifts one token off `bank`'s stack for the kind
        sold and at most one bonus off BONUS_TOKENS, as `Sell` describes. */
    method SellGoods(cards: seq<Card>, bank: TokenBank) returns (r: Result<Sale, SellError>)
      requires cards != [] && StackPresent(cards, bank.stacks)
      modifies this, bank
      ensures r == Sell(cards, old(bank.stacks), old(bonus)).result
      ensures bank.stacks == Sell(cards, old(bank.stacks), old(bonus)).stacks
      ensures bonus == Sell(cards, old(bank.stacks), old(bonus)).bonus
    {
      var cardType := cards[0].kind;
      var count := |cards|;
      if cardType == Camel {
        return Failure(CannotSellCamels);
      }
      var minRequired := MinRequired(cardType);
      if count < minRequired {
        return Failure(BelowMinimum(cardType, minRequired));
      }
      if bank.stacks[cardType] == [] {
        return Failure(NoTokensLeft(cardType));
      }
      var tokenValue := bank.Shift(cardType);
      var totalScore := tokenValue;
      var bonusTokens: seq<Token> := [];
      if count >= 3 {
        if count == 3 && bonus.three != [] {
          var v := ShiftBonus(Three);
          bonusTokens := bonusTokens + [Token(BonusLabel(Three), v)];
          assert bonusTokens == [Token(BonusLabel(Three), v)];
          totalScore := totalScore + v;
        } else if count == 4 && bonus.four != [] {
          var v := ShiftBonus(Four);
          bonusTokens := bonusTokens + [Token(BonusLabel(Four), v)];
          assert bonusTokens == [Token(BonusLabel(Four), v)];
          totalScore := totalScore + v;
        } else if count >= 5 && bonus.five != [] {
          var v := ShiftBonus(Five);
          bonusTokens := bonusTokens + [Token(BonusLabel(Five), v)];
          assert bonusTokens == [Token(BonusLabel(Five), v)];
          totalScore := totalScore + v;
        }
      }
      r := Success(Sale(totalScore, tokenValue, bonusTokens));
    }
  }

  // ------------------------------------------------------- takeGoodsCard / takeCamels

  /** The `{ error }` results of the two take actions. */
  datatype TakeError = InvalidMarketIndex | CannotTakeCamel | NoCamelsInMarket

  /** `{ newMarket, newHand, takenCard }`; `newDeck` is the caller's own, popped, array. */
  datatype TakenGoods = TakenGoods(newMarket: seq<Card>, newHand: seq<Card>, takenCard: Card)

  datatype TakeGoodsOutcome = TakeGoodsOutcome(result: Result<TakenGoods, TakeError>, deck: seq<Card>)

  /** The number of cards a market refill of `n` cards pops from `deck`. */
  function Refill(deck: seq<Card>, n: nat): (k: nat)
    ensures k <= |deck| && k <= n && (k == n || k == |deck|)
  {
    Min(n, |deck|)
  }

  /** `takeGoodsCard` on values. The market card is removed from its slot and the deck's
      last card, if any, is appended at the end of the market, not put in that slot. */
  function TakeGoods(marketIndex: int, market: seq<Card>, deck: seq<Card>, hand: seq<Card>): (o: TakeGoodsOutcome)
    ensures o.result == Failure(InvalidMarketIndex) <==> !(0 <= marketIndex < |market|)
    ensures o.result == Failure(CannotTakeCamel) <==> 0 <= marketIndex < |market| && market[marketIndex].kind == Camel
    ensures o.result.Failure? ==> o.deck == deck
    ensures o.result.Success? ==> var t := o.result.value;
      && 0 <= marketIndex < |market|
      && t.takenCard == market[marketIndex] && t.takenCard.kind != Camel
      && t.newHand == hand + [t.takenCard]
      && t.newMarket == market[..marketIndex] + market[marketIndex + 1..] + Drawn(deck, Refill(deck, 1))
      && o.deck == deck[..|deck| - Refill(deck, 1)]
      && |t.newMarket| == (if deck == [] then |market| - 1 else |market|)
  {
    if !(0 <= marketIndex < |market|) then TakeGoodsOutcome(Failure(InvalidMarketIndex), deck)
    else if market[marketIndex].kind == Camel then TakeGoodsOutcome(Failure(CannotTakeCamel), deck)
    else
      var card := market[marketIndex];
      var newMarket := market[..marketIndex] + market[marketIndex + 1..];
      if |deck| > 0 then
        TakeGoodsOutcome(Success(TakenGoods(newMarket + [deck[|deck| - 1]], hand + [card], card)), deck[..|deck| - 1])
      else
        TakeGoodsOutcome(Success(TakenGoods(newMarket, hand + [card], card)), deck)
  }

  /** Taking a goods card moves cards and creates none: market, deck and hand hold the
      same cards before and after. */
  lemma TakeGoodsConserves(marketIndex: int, market: seq<Card>, deck: seq<Card>, hand: seq<Card>)
    ensures var o := TakeGoods(marketIndex, market, deck, hand);
      o.result.Success? ==>
        multiset(o.result.value.newMarket) + multiset(o.deck) + multiset(o.result.value.newHand)
        == multiset(market) + multiset(deck) + multiset(hand)
  {
    var o := TakeGoods(marketIndex, market, deck, hand);
    if o.result.Success? {
      var k := Refill(deck, 1);
      MultisetRemove(market, marketIndex);
      DrawnConserves(deck, k);
    }
  }

  /** `takeGoodsCard(marketIndex, market, deck, playerHand)`: pops the refill card off the
      caller's `deck` in place. */
  method TakeGoodsCard(marketIndex: int, market: seq<Card>, deck: Pile, hand: seq<Card>)
    returns (r: Result<TakenGoods, TakeError>)
    modifies deck
    ensures var o := TakeGoods(marketIndex, market, old(deck.cards), hand);
      r == o.result && deck.cards == o.deck
  {
    if marketIndex < 0 || marketIndex >= |market| {
      return Failure(InvalidMarketIndex);
    }
    var card := market[marketIndex];
    if card.kind == Camel {
      return Failure(CannotTakeCamel);
    }
    var newMarket := market[..marketIndex] + market[marketIndex + 1..];
    if |deck.cards| > 0 {
      var c := deck.Pop();
      newMarket := newMarket + [c];
    }
    r := Success(TakenGoods(newMarket, hand + [card], card));
  }

  /** `{ newMarket, newCamelHerd, takenCamels }`; `newDeck` is the caller's popped array. */
  datatype TakenCamels = TakenCamels(newMarket: seq<Card>, newCamelHerd: seq<Card>, takenCamels: nat)

  datatype TakeCamelsOutcome = TakeCamelsOutcome(result: Result<TakenCamels, TakeError>, deck: seq<Card>)

  /** `takeCamels` on values: every camel leaves the market for the herd and as many cards
      as there were camels are popped from the deck tail onto the end of the market, while
      the deck lasts. Those refills may be camels themselves. */
  function TakeAllCamels(market: seq<Card>, deck: seq<Card>, herd: seq<Card>): (o: TakeCamelsOutcome)
    ensures o.result.Failure? <==> Camels(market) == []
    ensures o.result.Failure? ==> o.result.error == NoCamelsInMarket && o.deck == deck
    ensures o.result.Success? ==> var t, k := o.result.value, |Camels(market)|;
      && t.takenCamels == k && k > 0
      && t.newMarket == NonCamels(market) + Drawn(deck, Refill(deck, k))
      && o.deck == deck[..|deck| - Refill(deck, k)]
      && t.newCamelHerd == herd + Camels(market)
      && |t.newCamelHerd| == |herd| + t.takenCamels
      && (|deck| >= k ==> |t.newMarket| == |market|)
  {
    var camels := Camels(market);
    if camels == [] then TakeCamelsOutcome(Failure(NoCamelsInMarket), deck)
    else
      var k := Refill(deck, |camels|);
      FiltersPartition(market);
      TakeCamelsOutcome(Success(TakenCamels(NonCamels(market) + Drawn(deck, k), herd + camels, |camels|)), deck[..|deck| - k])
  }

  /** Taking camels moves cards and creates none. */
  lemma TakeAllCamelsConserves(market: seq<Card>, deck: seq<Card>, herd: seq<Card>)
    ensures var o := TakeAllCamels(market, deck, herd);
      o.result.Success? ==>
        multiset(o.result.value.newMarket) + multiset(o.deck) + multiset(o.result.value.newCamelHerd)
        == multiset(market) + multiset(deck) + multiset(herd)
  {
    var o := TakeAllCamels(market, deck, herd);
    if o.result.Success? {
      FiltersPartition(market);
      DrawnConserves(deck, Refill(deck, |Camels(market)|));
    }
  }

  /** The market can hold camels again right after `takeCamels`. */
  lemma CamelsCanReturn()
    ensures var c := Card(0, Camel);
      var o := TakeAllCamels([c], [c], []);
      o.result.Success? && Camels(o.result.value.newMarket) != []
  {
    var c := Card(0, Camel);
    assert Drawn([c], 1) == [c];
  }

  /** `takeCamels(market, deck, playerCamelHerd)`: the refill loop pops the caller's `deck`
      in place, once per camel taken, while it lasts. */
  method TakeCamels(market: seq<Card>, deck: Pile, herd: seq<Card>) returns (r: Result<TakenCamels, TakeError>)
    modifies deck
    ensures var o := TakeAllCamels(market, old(deck.cards), herd);
      r == o.result && deck.cards == o.deck
  {
    var camels := Camels(market);
    if |camels| == 0 {
      return Failure(NoCamelsInMarket);
    }
    var newMarket := NonCamels(market);
    ghost var d := deck.cards;
    var cardsNeeded := |camels|;
    var i := 0;
    while i < cardsNeeded && |deck.cards| > 0
      invariant i <= cardsNeeded && i <= |d|
      invariant newMarket == NonCamels(market) + Drawn(d, i)
      invariant deck.cards == d[..|d| - i]
    {
      DrawnPop(d, i);
      var c := deck.Pop();
      newMarket := newMarket + [c];
      i := i + 1;
    }
    r := Success(TakenCamels(newMarket, herd + camels, |camels|));
  }
}
