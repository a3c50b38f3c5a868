/** Cards, the fixed constants of the ruleset, and the sequence vocabulary every other
    module speaks: camel / goods filters, the cards produced by popping a deck, and counting
    cards of one kind. */
module Cards {

  datatype CardType = Diamond | Gold | Silver | Cloth | Spice | Leather | Camel

  /** A card `{ id, type }`. */
  datatype Card = Card(id: int, kind: CardType)

  /** The string values of CARD_TYPES. */
  function TypeName(k: CardType): string
  {
    match k
    case Diamond => "diamond"
    case Gold => "gold"
    case Silver => "silver"
    case Cloth => "cloth"
    case Spice => "spice"
    case Leather => "leather"
    case Camel => "camel"
  }

  /** The six goods kinds, the keys of TOKEN_VALUES. */
  const GoodsKinds: set<CardType> := {Diamond, Gold, Silver, Cloth, Spice, Leather}

  /** TOKEN_VALUES: the token stack of each goods kind, front (first sold) first. */
  function TokenValues(k: CardType): seq<int>
    requires k != Camel
  {
    match k
    case Diamond => [7, 7, 5, 5, 5]
    case Gold => [6, 6, 5, 5, 5]
    case Silver => [5, 5, 5, 5, 5]
    case Cloth => [5, 3, 3, 2, 2, 1, 1]
    case Spice => [5, 3, 3, 2, 2, 1, 1]
    case Leather => [4, 3, 2, 1, 1, 1, 1]
  }

  /** The three bonus stacks `three`, `four` and `five`. */
  datatype BonusKind = Three | Four | Five

  datatype BonusStacks = BonusStacks(three: seq<int>, four: seq<int>, five: seq<int>)
  {
    function Get(b: BonusKind): seq<int>
    {
      match b
      case Three => three
      case Four => four
      case Five => five
    }

    /** The stacks after `shift()` on stack `b`; the other two are untouched. */
    function Shift(b: BonusKind): (r: BonusStacks)
      requires Get(b) != []
      ensures r.Get(b) == Get(b)[1..]
      ensures forall o :: o != b ==> r.Get(o) == Get(o)
    {
      match b
      case Three => this.(three := three[1..])
      case Four => this.(four := four[1..])
      case Five => this.(five := five[1..])
    }
  }

  /** BONUS_TOKENS as declared. */
  const InitialBonus: BonusStacks := BonusStacks([3, 2, 1], [6, 5, 4], [10, 9, 8])

  /** An awarded token `{ type, value }`: `type` is a goods kind or a bonus stack name. */
  datatype TokenLabel = GoodsLabel(kind: CardType) | BonusLabel(bonus: BonusKind)
  datatype Token = Token(tag: TokenLabel, value: int)

  /** A player record `{ hand, camelHerd, tokens, score }`. */
  datatype Player = Player(hand: seq<Card>, camelHerd: seq<Card>, tokens: seq<Token>, score: int)

  predicate NoCamel(s: seq<Card>)
  {
    forall c :: c in s ==> c.kind != Camel
  }

  predicate AllCamels(s: seq<Card>)
  {
    forall c :: c in s ==> c.kind == Camel
  }

  /** `s.filter(card => card.type === 'camel')`. */
  function Camels(s: seq<Card>): (r: seq<Card>)
    ensures |r| <= |s|
  {
    if s == [] then []
    else if s[0].kind == Camel then [s[0]] + Camels(s[1..])
    else Camels(s[1..])
  }

  /** `s.filter(card => card.type !== 'camel')`. */
  function NonCamels(s: seq<Card>): (r: seq<Card>)
    ensures |r| <= |s|
  {
    if s == [] then []
    else if s[0].kind == Camel then NonCamels(s[1..])
    else [s[0]] + NonCamels(s[1..])
  }

  lemma {:induction false} CamelsAppend(a: seq<Card>, b: seq<Card>)
    ensures Camels(a + b) == Camels(a) + Camels(b)
  {
    if a == [] {
      assert a + b == b;
    } else {
      assert (a + b)[0] == a[0];
      assert (a + b)[1..] == a[1..] + b;
      CamelsAppend(a[1..], b);
      if a[0].kind == Camel {
        assert Camels(a + b) == [a[0]] + Camels(a[1..] + b);
      } else {
        assert Camels(a + b) == Camels(a[1..] + b);
      }
    }
  }

  lemma {:induction false} NonCamelsAppend(a: seq<Card>, b: seq<Card>)
    ensures NonCamels(a + b) == NonCamels(a) + NonCamels(b)
  {
    if a == [] {
      assert a + b == b;
    } else {
      assert (a + b)[0] == a[0];
      assert (a + b)[1..] == a[1..] + b;
      NonCamelsAppend(a[1..], b);
      if a[0].kind == Camel {
        assert NonCamels(a + b) == NonCamels(a[1..] + b);
      } else {
        assert NonCamels(a + b) == [a[0]] + NonCamels(a[1..] + b);
      }
    }
  }

  lemma FiltersAppend(a: seq<Card>, b: seq<Card>)
    ensures Camels(a + b) == Camels(a) + Camels(b)
    ensures NonCamels(a + b) == NonCamels(a) + NonCamels(b)
  {
    CamelsAppend(a, b);
    NonCamelsAppend(a, b);
  }

  lemma {:induction false} FiltersSelect(s: seq<Card>)
    ensures AllCamels(Camels(s)) && NoCamel(NonCamels(s))
  {
    if s != [] {
      FiltersSelect(s[1..]);
    }
  }

  /** The two filters split a sequence: together they hold exactly its cards. */
  lemma {:induction false} FiltersPartition(s: seq<Card>)
    ensures multiset(Camels(s)) + multiset(NonCamels(s)) == multiset(s)
    ensures |Camels(s)| + |NonCamels(s)| == |s|
  {
    if s != [] {
      FiltersPartition(s[1..]);
      assert s == [s[0]] + s[1..];
    }
  }

  lemma FiltersOfCamelFree(s: seq<Card>)
    requires NoCamel(s)
    ensures NonCamels(s) == s && Camels(s) == []
  {
    if s != [] {
      FiltersOfCamelFree(s[1..]);
    }
  }

  /** The cards that `t` successive `deck.pop()` calls return, in the order returned. */
  function Drawn(d: seq<Card>, t: nat): (r: seq<Card>)
    requires t <= |d|
    ensures |r| == t
  {
    seq(t, m requires 0 <= m < t => d[|d| - 1 - m])
  }

  lemma DrawnPop(d: seq<Card>, t: nat)
    requires t < |d|
    ensures Drawn(d, t + 1) == Drawn(d, t) + [d[|d| - 1 - t]]
  {
  }

  /** One more pop adds the popped card to exactly one of the two filters. */
  lemma PopFilters(d: seq<Card>, t: nat)
    requires t < |d|
    ensures var c := d[|d| - 1 - t];
      && Camels(Drawn(d, t + 1)) == Camels(Drawn(d, t)) + (if c.kind == Camel then [c] else [])
      && NonCamels(Drawn(d, t + 1)) == NonCamels(Drawn(d, t)) + (if c.kind == Camel then [] else [c])
  {
    var c := d[|d| - 1 - t];
    DrawnPop(d, t);
    FiltersAppend(Drawn(d, t), [c]);
    assert [c][1..] == [];
  }

  /** Up to `n` repetitions of `deck.length ? deck.pop() : null` collected in order: the
      loops that draw from the tail of a deck until a count is reached or it runs out. */
  method PopUpTo(deck: seq<Card>, n: nat) returns (popped: seq<Card>, rest: seq<Card>)
    ensures var k := if n <= |deck| then n else |deck|;
      popped == Drawn(deck, k) && rest == deck[..|deck| - k]
  {
    popped, rest := [], deck;
    while |popped| < n && |rest| > 0
      invariant |popped| <= n && |popped| <= |deck|
      invariant popped == Drawn(deck, |popped|) && rest == deck[..|deck| - |popped|]
    {
      DrawnPop(deck, |popped|);
      popped := popped + [rest[|rest| - 1]];
      rest := rest[..|rest| - 1];
    }
  }

  /** Popping conserves cards: the drawn ones plus what is left are the old deck. */
  lemma {:induction false} DrawnConserves(d: seq<Card>, t: nat)
    requires t <= |d|
    ensures multiset(Drawn(d, t)) + multiset(d[..|d| - t]) == multiset(d)
  {
    if t == 0 {
      assert d[..|d|] == d;
    } else {
      DrawnConserves(d, t - 1);
      DrawnPop(d, t - 1);
      var n := |d| - t;
      var x := d[n];
      var pre, pre1 := d[..n], d[..n + 1];
      assert pre1 == pre + [x];
      var dr, dr1 := Drawn(d, t), Drawn(d, t - 1);
      assert dr == dr1 + [x];
      calc {
        multiset(dr) + multiset(pre);
        multiset(dr1) + multiset{x} + multiset(pre);
        multiset(dr1) + multiset(pre1);
        multiset(d);
      }
    }
  }

  /** Number of cards of kind `k` in `s`. */
  function CountKind(s: seq<Card>, k: CardType): (n: nat)
    ensures n <= |s|
  {
    if s == [] then 0
    else CountKind(s[..|s| - 1], k) + (if s[|s| - 1].kind == k then 1 else 0)
  }

  lemma CountKindPush(s: seq<Card>, c: Card)
    ensures forall k :: CountKind(s + [c], k) == CountKind(s, k) + (if c.kind == k then 1 else 0)
  {
    assert (s + [c])[..|s|] == s;
  }

  lemma {:induction false} CountKindAppend(a: seq<Card>, b: seq<Card>, k: CardType)
    ensures CountKind(a + b, k) == CountKind(a, k) + CountKind(b, k)
  {
    if b == [] {
      assert a + b == a;
    } else {
      var b' := b[..|b| - 1];
      CountKindAppend(a, b', k);
      assert (a + b)[..|a + b| - 1] == a + b';
    }
  }

  lemma CountKindRemove(b: seq<Card>, i: nat, k: CardType)
    requires i < |b|
    ensures CountKind(b, k) == CountKind(b[..i] + b[i + 1..], k) + (if b[i].kind == k then 1 else 0)
  {
    assert b == (b[..i] + [b[i]]) + b[i + 1..];
    CountKindAppend(b[..i] + [b[i]], b[i + 1..], k);
    CountKindAppend(b[..i], b[i + 1..], k);
    CountKindPush(b[..i], b[i]);
  }

  lemma MultisetCons(a: seq<Card>)
    requires a != []
    ensures multiset(a) == multiset{a[0]} + multiset(a[1..])
  {
    assert a == [a[0]] + a[1..];
  }

  lemma MultisetRemove(b: seq<Card>, i: nat)
    requires i < |b|
    ensures multiset(b[..i] + b[i + 1..]) == multiset(b) - multiset{b[i]}
  {
    assert b == b[..i] + [b[i]] + b[i + 1..];
  }

  /** Shuffling cannot change the composition: equal multisets give equal counts. */
  lemma {:induction false} CountKindPermutation(a: seq<Card>, b: seq<Card>, k: CardType)
    requires multiset(a) == multiset(b)
    ensures CountKind(a, k) == CountKind(b, k)
  {
    if a == [] {
      assert |b| == |multiset(b)| == 0;
    } else {
      var x := a[|a| - 1];
      assert x in b by {
        assert x in multiset(a);
      }
      var i :| 0 <= i < |b| && b[i] == x;
      var a' := a[..|a| - 1];
      var b' := b[..i] + b[i + 1..];
      assert multiset(a') == multiset(b') by {
        MultisetRemove(a, |a| - 1);
        MultisetRemove(b, i);
        assert a[..|a| - 1] + a[|a|..] == a';
      }
      CountKindPermutation(a', b', k);
      CountKindRemove(b, i, k);
      assert CountKind(a, k) == CountKind(a', k) + (if x.kind == k then 1 else 0);
    }
  }

  /** A list of camels counts as many camels as it has cards. */
  lemma {:induction false} CountAllCamels(s: seq<Card>)
    requires AllCamels(s)
    ensures CountKind(s, Camel) == |s|
  {
    if s != [] {
      assert s[|s| - 1] in s;
      CountAllCamels(s[..|s| - 1]);
    }
  }

  /** A JavaScript array of cards that a helper mutates in place (`deck.pop()`). */
  class Pile {
    var cards: seq<Card>

    constructor (cards: seq<Card>)
      ensures this.cards == cards
    {
      this.cards := cards;
    }

    /** `pop()` on a non-empty array: removes and returns the last card. */
    method Pop() returns (c: Card)
      requires cards != []
      modifies this
      ensures c == old(cards)[|old(cards)| - 1]
      ensures cards == old(cards)[..|old(cards)| - 1]
    {
      c := cards[|cards| - 1];
      cards := cards[..|cards| - 1];
    }
  }
}
