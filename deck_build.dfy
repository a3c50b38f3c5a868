/** Building and shuffling the 49-card deck. `createDeck` and `shuffleDeck` are the same
    code in the server's and the client's deck module, so they are modelled once. The
    random swap index of each shuffle step is an oracle argument. */
module DeckBuild {
  import opened Cards

  /** The five kinds pushed, in this order, by each round of the first build loop. */
  const FirstLoopKinds: seq<CardType> := [Diamond, Gold, Silver, Cloth, Spice]

  /** The kind `createDeck` pushes at build position `m`, before shuffling. */
  function OrderedKind(m: nat): CardType
  {
    if m < 30 then FirstLoopKinds[m % 5] else if m < 38 then Leather else Camel
  }

  /** The five cards one round of the first build loop pushes onto a deck of `n` cards. */
  function FirstLoopBlock(n: nat): seq<Card>
  {
    [Card(n, Diamond), Card(n + 1, Gold), Card(n + 2, Silver), Card(n + 3, Cloth), Card(n + 4, Spice)]
  }

  lemma FirstLoopBlockCount(n: nat, k: CardType)
    ensures CountKind(FirstLoopBlock(n), k) == if k in FirstLoopKinds then 1 else 0
  {
    var b := FirstLoopBlock(n);
    var e: seq<Card> := [];
    CountKindPush(e, b[0]);
    CountKindPush(e + [b[0]], b[1]);
    CountKindPush(e + [b[0]] + [b[1]], b[2]);
    CountKindPush(e + [b[0]] + [b[1]] + [b[2]], b[3]);
    CountKindPush(e + [b[0]] + [b[1]] + [b[2]] + [b[3]], b[4]);
    assert b == e + [b[0]] + [b[1]] + [b[2]] + [b[3]] + [b[4]];
  }

  lemma FirstLoopBlockPositions(deck: seq<Card>, i: nat)
    requires i < 6 && |deck| == 5 * i
    requires forall m :: 0 <= m < |deck| ==> deck[m] == Card(m, OrderedKind(m))
    ensures forall m :: 0 <= m < |deck| + 5 ==>
      (deck + FirstLoopBlock(|deck|))[m] == Card(m, OrderedKind(m))
  {
    var d := deck + FirstLoopBlock(|deck|);
    forall m | 0 <= m < |deck| + 5 ensures d[m] == Card(m, OrderedKind(m)) {
      if m >= |deck| {
        var r := m - 5 * i;
        assert m == 5 * i + r && 0 <= r < 5;
        assert m % 5 == r;
      }
    }
  }

  /** `createDeck` without its final `shuffleDeck`: three push loops, each card's id
      being the deck length at the moment it is pushed. */
  method CreateOrderedDeck() returns (deck: seq<Card>)
    ensures |deck| == 49
    ensures forall m :: 0 <= m < |deck| ==> deck[m] == Card(m, OrderedKind(m))
    ensures CountKind(deck, Diamond) == 6 && CountKind(deck, Gold) == 6
    ensures CountKind(deck, Silver) == 6 && CountKind(deck, Cloth) == 6
    ensures CountKind(deck, Spice) == 6 && CountKind(deck, Leather) == 8
    ensures CountKind(deck, Camel) == 11
  {
    deck := [];
    for i := 0 to 6
      invariant |deck| == 5 * i
      invariant forall m :: 0 <= m < |deck| ==> deck[m] == Card(m, OrderedKind(m))
      invariant forall k :: CountKind(deck, k) == if k in FirstLoopKinds then i else 0
    {
      FirstLoopBlockPositions(deck, i);
      forall k ensures CountKind(deck + FirstLoopBlock(|deck|), k) == CountKind(deck, k) + CountKind(FirstLoopBlock(|deck|), k) {
        CountKindAppend(deck, FirstLoopBlock(|deck|), k);
      }
      forall k ensures CountKind(FirstLoopBlock(|deck|), k) == if k in FirstLoopKinds then 1 else 0 {
        FirstLoopBlockCount(|deck|, k);
      }
      deck := deck + FirstLoopBlock(|deck|);
    }
    for i := 0 to 8
      invariant |deck| == 30 + i
      invariant forall m :: 0 <= m < |deck| ==> deck[m] == Card(m, OrderedKind(m))
      invariant forall k :: k in FirstLoopKinds ==> CountKind(deck, k) == 6
      invariant CountKind(deck, Leather) == i && CountKind(deck, Camel) == 0
    {
      CountKindPush(deck, Card(|deck|, Leather));
      deck := deck + [Card(|deck|, Leather)];
    }
    for i := 0 to 11
      invariant |deck| == 38 + i
      invariant forall m :: 0 <= m < |deck| ==> deck[m] == Card(m, OrderedKind(m))
      invariant forall k :: k in FirstLoopKinds ==> CountKind(deck, k) == 6
      invariant CountKind(deck, Leather) == 8 && CountKind(deck, Camel) == i
    {
      CountKindPush(deck, Card(|deck|, Camel));
      deck := deck + [Card(|deck|, Camel)];
    }
  }

  /** `shuffleDeck`: Fisher-Yates on a copy. For `i` from the last position down to 1 the
      source swaps positions `i` and `j = floor(random * (i + 1))`; here `j` is `swaps[i]`,
      any value in `[0, i]`. */
  method ShuffleDeck(deck: seq<Card>, swaps: seq<nat>) returns (shuffled: seq<Card>)
    requires |swaps| == |deck|
    requires forall i :: 0 <= i < |swaps| ==> swaps[i] <= i
    ensures |shuffled| == |deck|
    ensures multiset(shuffled) == multiset(deck)
  {
    var a := new Card[|deck|](m requires 0 <= m < |deck| => deck[m]);
    assert a[..] == deck;
    var i := a.Length - 1;
    while i > 0
      invariant -1 <= i < a.Length
      invariant multiset(a[..]) == multiset(deck)
    {
      var j := swaps[i];
      a[i], a[j] := a[j], a[i];
      i := i - 1;
    }
    shuffled := a[..];
  }

  /** `createDeck`: the ordered deck, shuffled with the given swap indices. The result
      holds each of the 49 built cards exactly once. */
  method CreateDeck(swaps: seq<nat>) returns (deck: seq<Card>)
    requires |swaps| == 49
    requires forall i :: 0 <= i < |swaps| ==> swaps[i] <= i
    ensures |deck| == 49
    ensures forall c :: c in deck <==> 0 <= c.id < 49 && c.kind == OrderedKind(c.id)
    ensures CountKind(deck, Diamond) == 6 && CountKind(deck, Gold) == 6
    ensures CountKind(deck, Silver) == 6 && CountKind(deck, Cloth) == 6
    ensures CountKind(deck, Spice) == 6 && CountKind(deck, Leather) == 8
    ensures CountKind(deck, Camel) == 11
  {
    var ordered := CreateOrderedDeck();
    deck := ShuffleDeck(ordered, swaps);
    forall k: CardType ensures CountKind(deck, k) == CountKind(ordered, k) {
      CountKindPermutation(deck, ordered, k);
    }
    forall c: Card ensures c in deck <==> 0 <= c.id < 49 && c.kind == OrderedKind(c.id) {
      assert c in deck <==> c in multiset(ordered);
      if 0 <= c.id < 49 && c.kind == OrderedKind(c.id) {
        assert ordered[c.id] == c;
      }
    }
  }
}
