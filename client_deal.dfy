/** The client's opening deal: ten cards popped alternately to the two players, camels
    moved to the herds, each hand topped up from the tail (player 1 first), and three more
    pops for the market. Unlike the server's deal nothing forces camels into the market,
    and a pop on an empty deck yields `undefined`, modelled as `None`. */
module ClientDeal {
  import opened Basics
  import opened Cards

  const HandSize: nat := 5
  const ClientMarketSize: nat := 3

  /** The first `i` cards the alternating loop gives to a player: player 1 (`o == 0`) gets
      the 1st, 3rd, 5th ... card popped, player 2 (`o == 1`) the 2nd, 4th, 6th ... */
  function Dealt(d: seq<Card>, o: nat, i: nat): (r: seq<Card>)
    requires o <= 1 && 2 * i <= |d|
    ensures |r| == i
  {
    seq(i, m requires 0 <= m < i => d[|d| - 1 - o - 2 * m])
  }

  lemma DealtPush(d: seq<Card>, o: nat, i: nat)
    requires o <= 1 && 2 * (i + 1) <= |d|
    ensures Dealt(d, o, i + 1) == Dealt(d, o, i) + [d[|d| - 1 - o - 2 * i]]
  {
  }

  /** The `for (i < 5)` loop pushing `newDeck.pop()` to player 1, then to player 2. */
  method DealAlternately(deck: seq<Card>) returns (raw1: seq<Card>, raw2: seq<Card>, rest: seq<Card>)
    requires |deck| >= 2 * HandSize
    ensures raw1 == Dealt(deck, 0, HandSize) && raw2 == Dealt(deck, 1, HandSize)
    ensures rest == deck[..|deck| - 2 * HandSize]
  {
    raw1, raw2, rest := [], [], deck;
    for i := 0 to HandSize
      invariant raw1 == Dealt(deck, 0, i) && raw2 == Dealt(deck, 1, i)
      invariant |rest| == |deck| - 2 * i && rest == deck[..|rest|]
    {
      DealtPush(deck, 0, i);
      DealtPush(deck, 1, i);
      raw1 := raw1 + [rest[|rest| - 1]];
      rest := rest[..|rest| - 1];
      raw2 := raw2 + [rest[|rest| - 1]];
      rest := rest[..|rest| - 1];
    }
  }

  /** `a[0], b[0], a[1], b[1], ...`: the order in which the alternating loop pops. */
  function Interleave(a: seq<Card>, b: seq<Card>): (r: seq<Card>)
    requires |a| == |b|
    ensures |r| == 2 * |a|
  {
    if a == [] then [] else [a[0], b[0]] + Interleave(a[1..], b[1..])
  }

  lemma {:induction false} InterleaveConserves(a: seq<Card>, b: seq<Card>)
    requires |a| == |b|
    ensures multiset(Interleave(a, b)) == multiset(a) + multiset(b)
  {
    if a != [] {
      InterleaveConserves(a[1..], b[1..]);
      MultisetCons(a);
      MultisetCons(b);
    }
  }

  /** The alternating loop hands out the popped cards in turn: what `2 * i` pops return is
      the two raw hands interleaved. */
  lemma {:induction false} DrawnInterleaves(d: seq<Card>, i: nat)
    requires 2 * i <= |d|
    ensures Drawn(d, 2 * i) == Interleave(Dealt(d, 0, i), Dealt(d, 1, i))
  {
    if i > 0 {
      var n := |d|;
      var d' := d[..n - 2];
      DrawnInterleaves(d', i - 1);
      assert Dealt(d, 0, i)[1..] == Dealt(d', 0, i - 1);
      assert Dealt(d, 1, i)[1..] == Dealt(d', 1, i - 1);
      assert Drawn(d, 2 * i) == [d[n - 1], d[n - 2]] + Drawn(d', 2 * (i - 1));
    }
  }

  /** The alternating loop loses no card: the two raw hands together hold exactly the
      cards popped. */
  lemma DealtConserves(d: seq<Card>, i: nat)
    requires 2 * i <= |d|
    ensures multiset(Dealt(d, 0, i)) + multiset(Dealt(d, 1, i)) == multiset(Drawn(d, 2 * i))
  {
    DrawnInterleaves(d, i);
    InterleaveConserves(Dealt(d, 0, i), Dealt(d, 1, i));
  }

  /** One of the two replacement `while` loops: pop from the tail while the player has
      fewer than five goods and the deck is not empty, sending camels to the herd. `t` is
      the number of cards popped. */
  method TopUpHand(goods0: seq<Card>, camels0: seq<Card>, d: seq<Card>)
    returns (goods: seq<Card>, camels: seq<Card>, rest: seq<Card>, ghost t: nat)
    ensures t <= |d| && rest == d[..|d| - t]
    ensures goods == goods0 + NonCamels(Drawn(d, t)) && camels == camels0 + Camels(Drawn(d, t))
    ensures |goods| >= HandSize || rest == []
    ensures t == 0 || |goods0| + |NonCamels(Drawn(d, t - 1))| < HandSize
    ensures |goods0| <= HandSize ==> |goods| <= HandSize
  {
    goods, camels, rest, t := goods0, camels0, d, 0;
    while |goods| < HandSize && |rest| > 0
      invariant t <= |d| && rest == d[..|d| - t]
      invariant goods == goods0 + NonCamels(Drawn(d, t)) && camels == camels0 + Camels(Drawn(d, t))
      invariant t == 0 || |goods0| + |NonCamels(Drawn(d, t - 1))| < HandSize
      invariant |goods0| <= HandSize ==> |goods| <= HandSize
    {
      var newCard := rest[|rest| - 1];
      TopUpStep(goods0, camels0, d, t);
      rest := rest[..|rest| - 1];
      if newCard.kind != Camel {
        goods := goods + [newCard];
      } else {
        camels := camels + [newCard];
      }
      t := t + 1;
    }
  }

  /** One pass of the replacement loop, on the two accumulated piles. */
  lemma TopUpStep(goods0: seq<Card>, camels0: seq<Card>, d: seq<Card>, t: nat)
    requires t < |d|
    ensures var c := d[|d| - 1 - t];
      && goods0 + NonCamels(Drawn(d, t + 1))
        == (goods0 + NonCamels(Drawn(d, t))) + (if c.kind != Camel then [c] else [])
      && camels0 + Camels(Drawn(d, t + 1))
        == (camels0 + Camels(Drawn(d, t))) + (if c.kind != Camel then [] else [c])
  {
    PopFilters(d, t);
  }

  /** The market's `for (i < 3)` loop: three pops, each `undefined` once the deck is empty. */
  method DrawMarket(d: seq<Card>) returns (market: seq<Option<Card>>, rest: seq<Card>)
    ensures |market| == ClientMarketSize
    ensures forall m :: 0 <= m < ClientMarketSize ==>
      market[m] == if m < |d| then Some(d[|d| - 1 - m]) else None
    ensures rest == d[..|d| - Min(ClientMarketSize, |d|)]
    ensures Present(market) == Drawn(d, Min(ClientMarketSize, |d|))
  {
    market, rest := [], d;
    for i := 0 to ClientMarketSize
      invariant |market| == i
      invariant forall m :: 0 <= m < i ==> market[m] == if m < |d| then Some(d[|d| - 1 - m]) else None
      invariant rest == d[..|d| - Min(i, |d|)]
      invariant Present(market) == Drawn(d, Min(i, |d|))
    {
      if |rest| > 0 {
        DrawnPop(d, i);
        assert (market + [Some(rest[|rest| - 1])])[..i] == market;
        market := market + [Some(rest[|rest| - 1])];
        rest := rest[..|rest| - 1];
      } else {
        assert (market + [None])[..i] == market;
        market := market + [None];
      }
    }
  }

  /** The cards of a market with `undefined` holes, in order. */
  function Present(m: seq<Option<Card>>): (r: seq<Card>)
    ensures |r| <= |m|
  {
    if m == [] then []
    else Present(m[..|m| - 1]) + (match m[|m| - 1] case Some(c) => [c] case None => [])
  }

  /** A replacement loop only moves cards from the deck to the hand or the herd. */
  lemma TopUpConserves(goods0: seq<Card>, camels0: seq<Card>, d: seq<Card>, t: nat)
    requires t <= |d|
    ensures multiset(goods0 + NonCamels(Drawn(d, t))) + multiset(camels0 + Camels(Drawn(d, t)))
      + multiset(d[..|d| - t]) == multiset(goods0) + multiset(camels0) + multiset(d)
  {
    FiltersPartition(Drawn(d, t));
    DrawnConserves(d, t);
  }

  /** The dealt position as the client builds it. */
  datatype ClientSetup = ClientSetup(deck: seq<Card>, player1: Player, player2: Player, market: seq<Option<Card>>)

  /** `dealInitialCards` of the client. The source reads `card.type` of every card of the
      first ten pops, so a deck shorter than ten cards makes it throw. */
  method DealInitialCards(deck: seq<Card>)
    returns (setup: ClientSetup, ghost t1: nat, ghost r1: seq<Card>, ghost t2: nat, ghost r2: seq<Card>)
    requires |deck| >= 2 * HandSize
    ensures var r0 := deck[..|deck| - 2 * HandSize];
      && t1 <= |r0| && r1 == r0[..|r0| - t1]
      && setup.player1.hand == NonCamels(Dealt(deck, 0, HandSize)) + NonCamels(Drawn(r0, t1))
      && setup.player1.camelHerd == Camels(Dealt(deck, 0, HandSize)) + Camels(Drawn(r0, t1))
    ensures t1 == 0 || |NonCamels(Dealt(deck, 0, HandSize))|
      + |NonCamels(Drawn(deck[..|deck| - 2 * HandSize], t1 - 1))| < HandSize
    ensures t2 <= |r1| && r2 == r1[..|r1| - t2]
    ensures t2 == 0 || |NonCamels(Dealt(deck, 1, HandSize))| + |NonCamels(Drawn(r1, t2 - 1))| < HandSize
    ensures setup.player2.hand == NonCamels(Dealt(deck, 1, HandSize)) + NonCamels(Drawn(r1, t2))
    ensures setup.player2.camelHerd == Camels(Dealt(deck, 1, HandSize)) + Camels(Drawn(r1, t2))
    ensures |setup.market| == ClientMarketSize
    ensures forall m :: 0 <= m < ClientMarketSize ==>
      setup.market[m] == if m < |r2| then Some(r2[|r2| - 1 - m]) else None
    ensures setup.deck == r2[..|r2| - Min(ClientMarketSize, |r2|)]
    ensures Present(setup.market) == Drawn(r2, Min(ClientMarketSize, |r2|))
    ensures NoCamel(setup.player1.hand) && NoCamel(setup.player2.hand)
    ensures AllCamels(setup.player1.camelHerd) && AllCamels(setup.player2.camelHerd)
    ensures |setup.player1.hand| <= HandSize && |setup.player2.hand| <= HandSize
    ensures |setup.player1.hand| == HandSize || r1 == []
    ensures |setup.player2.hand| == HandSize || r2 == []
    ensures setup.player1.tokens == [] && setup.player1.score == 0
    ensures setup.player2.tokens == [] && setup.player2.score == 0
  {
    var raw1, raw2, newDeck := DealAlternately(deck);
    var goods1, camels1, rest1, u1 := TopUpHand(NonCamels(raw1), Camels(raw1), newDeck);
    var goods2, camels2, rest2, u2 := TopUpHand(NonCamels(raw2), Camels(raw2), rest1);
    var market, rest3 := DrawMarket(rest2);
    t1, r1, t2, r2 := u1, rest1, u2, rest2;
    assert NoCamel(goods1) && AllCamels(camels1) && |goods1| <= HandSize
      && (|goods1| == HandSize || rest1 == []) by {
      FiltersPartition(raw1);
      FiltersSelect(raw1);
      FiltersSelect(Drawn(newDeck, u1));
    }
    assert NoCamel(goods2) && AllCamels(camels2) && |goods2| <= HandSize
      && (|goods2| == HandSize || rest2 == []) by {
      FiltersPartition(raw2);
      FiltersSelect(raw2);
      FiltersSelect(Drawn(rest1, u2));
    }
    setup := ClientSetup(rest3, Player(goods1, camels1, [], 0), Player(goods2, camels2, [], 0), market);
  }

  /** The ten alternating pops: the raw hands and the rest of the deck. */
  lemma AlternatingConserves(deck: seq<Card>)
    requires |deck| >= 2 * HandSize
    ensures multiset(Dealt(deck, 0, HandSize)) + multiset(Dealt(deck, 1, HandSize))
      + multiset(deck[..|deck| - 2 * HandSize]) == multiset(deck)
  {
    DealtConserves(deck, HandSize);
    DrawnConserves(deck, 2 * HandSize);
  }

  /** A raw hand split into goods and camels, then topped up from `d`. */
  lemma SplitTopUpConserves(raw: seq<Card>, d: seq<Card>, t: nat)
    requires t <= |d|
    ensures multiset(NonCamels(raw) + NonCamels(Drawn(d, t))) + multiset(Camels(raw) + Camels(Drawn(d, t)))
      + multiset(d[..|d| - t]) == multiset(raw) + multiset(d)
  {
    FiltersPartition(raw);
    TopUpConserves(NonCamels(raw), Camels(raw), d, t);
  }

  lemma StagesConserve(deck: multiset<Card>, raw1: multiset<Card>, raw2: multiset<Card>, r0: multiset<Card>,
                       hand1: multiset<Card>, herd1: multiset<Card>, r1: multiset<Card>,
                       hand2: multiset<Card>, herd2: multiset<Card>, r2: multiset<Card>,
                       market: multiset<Card>, r3: multiset<Card>)
    requires raw1 + raw2 + r0 == deck
    requires hand1 + herd1 + r1 == raw1 + r0
    requires hand2 + herd2 + r2 == raw2 + r1
    requires market + r3 == r2
    ensures hand1 + herd1 + hand2 + herd2 + market + r3 == deck
  {
    calc {
      hand1 + herd1 + hand2 + herd2 + market + r3;
      hand1 + herd1 + (hand2 + herd2 + (market + r3));
      hand1 + herd1 + (raw2 + r1);
      (hand1 + herd1 + r1) + raw2;
      raw1 + raw2 + r0;
    }
  }

  /** Whatever the number of replacement draws `t1` and `t2`, the position the client deal
      describes holds exactly the cards of the input deck: hands, herds, the cards present
      in the market and the remaining deck. */
  lemma ClientDealConserves(deck: seq<Card>, t1: nat, t2: nat)
    requires |deck| >= 2 * HandSize
    requires t1 <= |deck| - 2 * HandSize && t2 <= |deck| - 2 * HandSize - t1
    ensures var raw1, raw2 := Dealt(deck, 0, HandSize), Dealt(deck, 1, HandSize);
      var r0 := deck[..|deck| - 2 * HandSize];
      var r1 := r0[..|r0| - t1];
      var r2 := r1[..|r1| - t2];
      var k := Min(ClientMarketSize, |r2|);
      multiset(NonCamels(raw1) + NonCamels(Drawn(r0, t1))) + multiset(Camels(raw1) + Camels(Drawn(r0, t1)))
      + multiset(NonCamels(raw2) + NonCamels(Drawn(r1, t2))) + multiset(Camels(raw2) + Camels(Drawn(r1, t2)))
      + multiset(Drawn(r2, k)) + multiset(r2[..|r2| - k]) == multiset(deck)
  {
    var raw1, raw2 := Dealt(deck, 0, HandSize), Dealt(deck, 1, HandSize);
    var r0 := deck[..|deck| - 2 * HandSize];
    var r1 := r0[..|r0| - t1];
    var r2 := r1[..|r1| - t2];
    var k := Min(ClientMarketSize, |r2|);
    AlternatingConserves(deck);
    SplitTopUpConserves(raw1, r0, t1);
    SplitTopUpConserves(raw2, r1, t2);
    DrawnConserves(r2, k);
    StagesConserve(multiset(deck), multiset(raw1), multiset(raw2), multiset(r0),
      multiset(NonCamels(raw1) + NonCamels(Drawn(r0, t1))), multiset(Camels(raw1) + Camels(Drawn(r0, t1))), multiset(r1),
      multiset(NonCamels(raw2) + NonCamels(Drawn(r1, t2))), multiset(Camels(raw2) + Camels(Drawn(r1, t2))), multiset(r2),
      multiset(Drawn(r2, k)), multiset(r2[..|r2| - k]));
  }
}
