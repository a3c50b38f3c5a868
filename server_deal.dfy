/** The server's opening deal: each player's hand is drawn from the deck tail with
    camels diverted to the herd until the hand holds five goods, and the starting market
    pulls up to three camels out of the deck before filling to five from the tail. The
    working deck `newDeck`, which the source's closures pop, is threaded through the
    methods as an in/out value. */
module ServerDeal {
  import opened Basics
  import opened Cards

  const StartingHandSize: nat := 5
  const MarketSize: nat := 5
  const StartingCamelsInMarket: nat := 3

  /** `deck.findIndex(card => card.type === 'camel')`: the first camel's index, or -1. */
  function FirstCamel(s: seq<Card>): (r: int)
    ensures -1 <= r < |s|
    ensures r >= 0 ==> s[r].kind == Camel
  {
    if s == [] then -1
    else if s[0].kind == Camel then 0
    else
      var j := FirstCamel(s[1..]);
      if j < 0 then -1 else j + 1
  }

  /** `findIndex` answers -1 exactly when there is no camel, and otherwise no camel
      stands before the index it returns. */
  lemma {:induction false} FirstCamelFinds(s: seq<Card>)
    ensures FirstCamel(s) == -1 <==> Camels(s) == []
    ensures FirstCamel(s) >= 0 ==> Camels(s[..FirstCamel(s)]) == []
  {
    if s != [] {
      var x, t := s[0], s[1..];
      assert s == [x] + t;
      CamelsCons(x, t);
      FirstCamelFinds(t);
      if x.kind != Camel && FirstCamel(t) >= 0 {
        var j := FirstCamel(t);
        assert s[..j + 1] == [x] + t[..j];
        CamelsCons(x, t[..j]);
      }
    }
  }

  /** `s` without its first `k` camels (counted from the front); every other card keeps
      its relative order. */
  function StripCamels(s: seq<Card>, k: nat): seq<Card>
  {
    if s == [] then []
    else if s[0].kind == Camel && k > 0 then StripCamels(s[1..], k - 1)
    else [s[0]] + StripCamels(s[1..], k)
  }

  lemma {:induction false} StripNoCamels(s: seq<Card>)
    ensures StripCamels(s, 0) == s
  {
    if s != [] {
      StripNoCamels(s[1..]);
    }
  }

  lemma CamelsCons(x: Card, u: seq<Card>)
    ensures Camels([x] + u) == if x.kind == Camel then [x] + Camels(u) else Camels(u)
  {
    assert ([x] + u)[0] == x;
    assert ([x] + u)[1..] == u;
  }

  lemma {:induction false} StripCamelsLength(s: seq<Card>, k: nat)
    requires k <= |Camels(s)|
    ensures |StripCamels(s, k)| == |s| - k
  {
    if k == 0 {
      StripNoCamels(s);
    } else {
      var x, t := s[0], s[1..];
      assert s == [x] + t;
      CamelsCons(x, t);
      if x.kind == Camel {
        StripCamelsLength(t, k - 1);
      } else {
        StripCamelsLength(t, k);
      }
    }
  }

  lemma {:induction false} StripCamelsKeepsLater(s: seq<Card>, k: nat)
    requires k <= |Camels(s)|
    ensures Camels(StripCamels(s, k)) == Camels(s)[k..]
  {
    if k == 0 {
      StripNoCamels(s);
      assert Camels(s)[0..] == Camels(s);
    } else {
      var x, t := s[0], s[1..];
      assert s == [x] + t;
      CamelsCons(x, t);
      if x.kind == Camel {
        StripCamelsKeepsLater(t, k - 1);
        assert Camels(s)[k..] == Camels(t)[k - 1..];
      } else {
        var u := StripCamels(t, k);
        StripCamelsKeepsLater(t, k);
        CamelsCons(x, u);
      }
    }
  }

  lemma {:induction false} StripCamelsConserves(s: seq<Card>, k: nat)
    requires k <= |Camels(s)|
    ensures multiset(StripCamels(s, k)) + multiset(Camels(s)[..k]) == multiset(s)
  {
    if k == 0 {
      StripNoCamels(s);
    } else {
      var x, t := s[0], s[1..];
      assert s == [x] + t;
      CamelsCons(x, t);
      if x.kind == Camel {
        StripCamelsConserves(t, k - 1);
        assert Camels(s)[..k] == [x] + Camels(t)[..k - 1];
      } else {
        StripCamelsConserves(t, k);
      }
    }
  }

  /** The card `splice` removes from `e` at `findIndex`, and what it leaves. */
  predicate SplicesCamel(e: seq<Card>, camel: Card, rest: seq<Card>)
  {
    var j := FirstCamel(e);
    0 <= j < |e| && e[j] == camel && e[..j] + e[j + 1..] == rest
  }

  /** A goods card in front does not change which camel `splice` removes. */
  lemma SpliceBehindGoods(x: Card, e: seq<Card>, camel: Card, rest: seq<Card>)
    requires x.kind != Camel && SplicesCamel(e, camel, rest)
    ensures SplicesCamel([x] + e, camel, [x] + rest)
  {
    var e2 := [x] + e;
    var j := FirstCamel(e);
    assert e2[0] == x && e2[1..] == e;
    assert e2[..j + 1] + e2[j + 2..] == [x] + (e[..j] + e[j + 1..]);
  }

  /** One `splice` at `findIndex` turns "first `k` camels removed" into "first `k + 1`
      camels removed", and the card it takes out is camel number `k`. */
  lemma {:induction false} SpliceFirstCamel(s: seq<Card>, k: nat)
    requires k < |Camels(s)|
    ensures SplicesCamel(StripCamels(s, k), Camels(s)[k], StripCamels(s, k + 1))
  {
    var t := s[1..];
    if s[0].kind == Camel && k > 0 {
      assert Camels(s)[k] == Camels(t)[k - 1];
      SpliceFirstCamel(t, k - 1);
    } else if s[0].kind == Camel {
      StripNoCamels(s);
      StripNoCamels(t);
    } else {
      SpliceFirstCamel(t, k);
      SpliceBehindGoods(s[0], StripCamels(t, k), Camels(t)[k], StripCamels(t, k + 1));
    }
  }

  /** `prepareHand`: draw up to five cards, split them into goods and camels, then keep
      drawing while the hand has fewer than five goods and the deck is not empty.
      `rest` is `newDeck` afterwards; the cards drawn are the `drawn` last ones. */
  method PrepareHand(d: seq<Card>) returns (hand: seq<Card>, camelHerd: seq<Card>, rest: seq<Card>, ghost drawn: nat)
    ensures drawn <= |d| && rest == d[..|d| - drawn]
    ensures hand == NonCamels(Drawn(d, drawn)) && camelHerd == Camels(Drawn(d, drawn))
    ensures drawn >= Min(StartingHandSize, |d|)
    ensures drawn == Min(StartingHandSize, |d|) || |NonCamels(Drawn(d, drawn - 1))| < StartingHandSize
    ensures NoCamel(hand) && AllCamels(camelHerd)
    ensures |hand| <= StartingHandSize
    ensures |hand| == StartingHandSize || rest == []
    ensures multiset(hand) + multiset(camelHerd) + multiset(rest) == multiset(d)
  {
    var rawHand, newDeck := PopUpTo(d, StartingHandSize);
    var i := |rawHand|;
    var camels := Camels(rawHand);
    var goods := NonCamels(rawHand);
    var t := i;
    while |goods| < StartingHandSize && |newDeck| > 0
      invariant i <= t <= |d| && |newDeck| == |d| - t
      invariant newDeck == d[..|d| - t]
      invariant goods == NonCamels(Drawn(d, t)) && camels == Camels(Drawn(d, t))
      invariant |goods| <= StartingHandSize
      invariant t == i || |NonCamels(Drawn(d, t - 1))| < StartingHandSize
    {
      PopFilters(d, t);
      ghost var before := NonCamels(Drawn(d, t));
      var nextCard := newDeck[|newDeck| - 1];
      newDeck := newDeck[..|newDeck| - 1];
      if nextCard.kind == Camel {
        camels := camels + [nextCard];
      } else {
        goods := goods + [nextCard];
      }
      t := t + 1;
      assert NonCamels(Drawn(d, t - 1)) == before;
    }
    hand, camelHerd, rest, drawn := goods, camels, newDeck, t;
    PrepareHandEnd(d, t, hand, camelHerd, rest);
  }

  lemma PrepareHandEnd(d: seq<Card>, t: nat, hand: seq<Card>, camelHerd: seq<Card>, rest: seq<Card>)
    requires t <= |d| && rest == d[..|d| - t]
    requires hand == NonCamels(Drawn(d, t)) && camelHerd == Camels(Drawn(d, t))
    ensures NoCamel(hand) && AllCamels(camelHerd)
    ensures multiset(hand) + multiset(camelHerd) + multiset(rest) == multiset(d)
  {
    FiltersSelect(Drawn(d, t));
    FiltersPartition(Drawn(d, t));
    DrawnConserves(d, t);
  }

  /** `buildStartingMarket`: move the first (up to three) camels found from the front of
      the deck into the market, then pop from the tail until the market has five cards or
      the deck is empty. `rest` is the deck afterwards. */
  method BuildStartingMarket(d: seq<Card>) returns (market: seq<Card>, rest: seq<Card>, ghost filled: nat)
    ensures var c := Min(StartingCamelsInMarket, |Camels(d)|);
      var s := StripCamels(d, c);
      && filled <= |s| && rest == s[..|s| - filled]
      && market == Camels(d)[..c] + Drawn(s, filled)
    ensures |market| == Min(MarketSize, |d|)
    ensures multiset(market) + multiset(rest) == multiset(d)
  {
    var c, s;
    market, s, c := PullCamels(d);
    var filling;
    filling, rest := PopUpTo(s, MarketSize - c);
    market := market + filling;
    filled := |filling|;
    StripCamelsLength(d, c);
    MarketConserves(d, c, s, filled, filling, rest);
  }

  /** The first loop of `buildStartingMarket`: up to three times, `splice` the first
      camel out of the deck onto the market. */
  method PullCamels(d: seq<Card>) returns (market: seq<Card>, deck: seq<Card>, c: nat)
    ensures c == Min(StartingCamelsInMarket, |Camels(d)|)
    ensures deck == StripCamels(d, c) && market == Camels(d)[..c]
  {
    market := [];
    deck := d;
    c := 0;
    StripNoCamels(d);
    while c < StartingCamelsInMarket
      invariant 0 <= c <= StartingCamelsInMarket && c <= |Camels(d)|
      invariant deck == StripCamels(d, c) && market == Camels(d)[..c]
    {
      var camelIndex := FirstCamel(deck);
      if camelIndex == -1 {
        assert c == |Camels(d)| by {
          if c < |Camels(d)| {
            SpliceFirstCamel(d, c);
          }
        }
        break;
      }
      if c == |Camels(d)| {
        StripCamelsKeepsLater(d, c);
        FirstCamelFinds(deck);
        assert false;
      }
      assert deck[..camelIndex] + deck[camelIndex + 1..] == StripCamels(d, c + 1)
        && deck[camelIndex] == Camels(d)[c] by {
        SpliceFirstCamel(d, c);
      }
      assert Camels(d)[..c + 1] == Camels(d)[..c] + [Camels(d)[c]];
      market := market + [deck[camelIndex]];
      deck := deck[..camelIndex] + deck[camelIndex + 1..];
      c := c + 1;
    }
  }

  lemma MarketConserves(d: seq<Card>, c: nat, s: seq<Card>, f: nat, filling: seq<Card>, rest: seq<Card>)
    requires c <= |Camels(d)| && s == StripCamels(d, c)
    requires f <= |s| && filling == Drawn(s, f) && rest == s[..|s| - f]
    ensures multiset(Camels(d)[..c] + filling) + multiset(rest) == multiset(d)
  {
    var a := Camels(d)[..c];
    StripCamelsConserves(d, c);
    DrawnConserves(s, f);
    assert multiset(filling) + multiset(rest) == multiset(s);
    calc {
      multiset(a + filling) + multiset(rest);
      multiset(a) + (multiset(filling) + multiset(rest));
      multiset(a) + multiset(s);
      multiset(d);
    }
  }

  /** The dealt position: the remaining deck, both players, and the market. */
  datatype Setup = Setup(deck: seq<Card>, player1: Player, player2: Player, market: seq<Card>)

  /** All cards a setup holds, wherever they are. */
  function SetupCards(st: Setup): multiset<Card>
  {
    multiset(st.deck) + multiset(st.market)
    + multiset(st.player1.hand) + multiset(st.player1.camelHerd)
    + multiset(st.player2.hand) + multiset(st.player2.camelHerd)
  }

  /** `p` is the player `prepareHand` makes by popping `t` cards off `d`: the goods among
      them form the hand and the camels the herd, drawing stopped after the first five
      pops or at the first pop that completed five goods, and it stopped short of five
      goods only when the deck ran out. */
  predicate PreparedFrom(d: seq<Card>, t: nat, p: Player)
  {
    && t <= |d| && Min(StartingHandSize, |d|) <= t
    && p == Player(NonCamels(Drawn(d, t)), Camels(Drawn(d, t)), [], 0)
    && (t == Min(StartingHandSize, |d|) || |NonCamels(Drawn(d, t - 1))| < StartingHandSize)
    && (|p.hand| == StartingHandSize || t == |d|)
  }

  /** `setup` is `dealInitialCards` of `deck`: player 1 is prepared from `deck` with `t1`
      pops, player 2 from what is left with `t2` pops, and the market takes the first
      camels of the rest, found from the front, then `f` cards popped from its tail. */
  predicate Deals(deck: seq<Card>, setup: Setup, t1: nat, t2: nat, f: nat)
  {
    && PreparedFrom(deck, t1, setup.player1)
    && var d2 := deck[..|deck| - t1];
    && PreparedFrom(d2, t2, setup.player2)
    && var d3 := d2[..|d2| - t2];
    && var c := Min(StartingCamelsInMarket, |Camels(d3)|);
    && var s := StripCamels(d3, c);
    && f <= |s| && setup.deck == s[..|s| - f] && setup.market == Camels(d3)[..c] + Drawn(s, f)
  }

  /** `dealInitialCards`: player 1's hand is prepared in full from the tail of a copy of
      the deck, then player 2's from what is left, then the starting market. */
  method DealInitialCards(deck: seq<Card>) returns (setup: Setup, ghost t1: nat, ghost t2: nat, ghost f: nat)
    ensures Deals(deck, setup, t1, t2, f)
    ensures SetupCards(setup) == multiset(deck)
    ensures NoCamel(setup.player1.hand) && NoCamel(setup.player2.hand)
    ensures AllCamels(setup.player1.camelHerd) && AllCamels(setup.player2.camelHerd)
    ensures |setup.player1.hand| <= StartingHandSize && |setup.player2.hand| <= StartingHandSize
    ensures |setup.player1.hand| == StartingHandSize || (setup.deck == [] && setup.market == [] && setup.player2.hand == [])
    ensures |setup.player2.hand| == StartingHandSize || (setup.deck == [] && setup.market == [])
    ensures |setup.market| == Min(MarketSize, |deck| - t1 - t2)
    ensures |setup.market| + |setup.deck| == |deck| - t1 - t2
  {
    var newDeck := deck;
    var hand1, herd1, rest1, drawn1 := PrepareHand(newDeck);
    var player1 := Player(hand1, herd1, [], 0);
    assert PreparedFrom(deck, drawn1, player1);
    var hand2, herd2, rest2, drawn2 := PrepareHand(rest1);
    var player2 := Player(hand2, herd2, [], 0);
    assert PreparedFrom(rest1, drawn2, player2);
    var market, rest3, filled := BuildStartingMarket(rest2);
    t1, t2, f := drawn1, drawn2, filled;
    setup := Setup(rest3, player1, player2, market);
    DealConserves(deck, rest1, rest2, setup);
    DealsInSteps(deck, setup, t1, t2, f, rest1, rest2);
  }

  /** The three steps of the deal, put together. */
  lemma DealsInSteps(deck: seq<Card>, setup: Setup, t1: nat, t2: nat, f: nat, rest1: seq<Card>, rest2: seq<Card>)
    requires PreparedFrom(deck, t1, setup.player1) && rest1 == deck[..|deck| - t1]
    requires PreparedFrom(rest1, t2, setup.player2) && rest2 == rest1[..|rest1| - t2]
    requires var c := Min(StartingCamelsInMarket, |Camels(rest2)|);
      var s := StripCamels(rest2, c);
      && f <= |s| && setup.deck == s[..|s| - f]
      && setup.market == Camels(rest2)[..c] + Drawn(s, f)
    ensures Deals(deck, setup, t1, t2, f)
  {
  }

  /** The three steps of the deal hand cards on and create none. */
  lemma DealConserves(deck: seq<Card>, rest1: seq<Card>, rest2: seq<Card>, setup: Setup)
    requires multiset(setup.player1.hand) + multiset(setup.player1.camelHerd) + multiset(rest1) == multiset(deck)
    requires multiset(setup.player2.hand) + multiset(setup.player2.camelHerd) + multiset(rest2) == multiset(rest1)
    requires multiset(setup.market) + multiset(setup.deck) == multiset(rest2)
    ensures SetupCards(setup) == multiset(deck)
    ensures |setup.market| + |setup.deck| == |rest2|
  {
    assert |multiset(setup.market) + multiset(setup.deck)| == |multiset(rest2)|;
  }

  /** Dealt from the 49-card deck of `createDeck`, a setup leaves at least 23 cards in the
      deck: two hands and a market of at most five cards each, and at most the 11 camels
      in the two herds. */
  lemma DealLeavesDeck(deck: seq<Card>, setup: Setup)
    requires |deck| == 49 && CountKind(deck, Camel) == 11
    requires SetupCards(setup) == multiset(deck)
    requires |setup.player1.hand| <= StartingHandSize && |setup.player2.hand| <= StartingHandSize
    requires |setup.market| <= MarketSize
    requires AllCamels(setup.player1.camelHerd) && AllCamels(setup.player2.camelHerd)
    ensures |setup.deck| >= 23
  {
    var herds := setup.player1.camelHerd + setup.player2.camelHerd;
    var others := setup.deck + setup.market + setup.player1.hand + setup.player2.hand;
    assert multiset(herds + others) == multiset(deck);
    CountKindPermutation(herds + others, deck, Camel);
    CountKindAppend(herds, others, Camel);
    CountAllCamels(herds);
    assert |herds + others| == 49 by {
      assert |multiset(herds + others)| == |multiset(deck)|;
    }
  }
}
