/** The display helpers of src/logic/helpers.js: ordering a hand for display, and the
    colour class and label of a card type. */
module Display {
  import opened Cards

  /** `typeOrder.indexOf(type)` in `sortCards`. Camels are not in `typeOrder`, so their
      rank is -1 and they sort first. */
  function Rank(k: CardType): int
  {
    match k
    case Diamond => 0
    case Gold => 1
    case Silver => 2
    case Cloth => 3
    case Spice => 4
    case Leather => 5
    case Camel => -1
  }

  /** Two kinds compare equal under the comparator exactly when they are the same kind. */
  lemma RankInjective(k1: CardType, k2: CardType)
    ensures Rank(k1) == Rank(k2) <==> k1 == k2
  {
  }

  predicate SortedByRank(s: seq<Card>)
  {
    forall i, j :: 0 <= i < j < |s| ==> Rank(s[i].kind) <= Rank(s[j].kind)
  }

  /** The cards of kind `k` in `s`, in their order in `s`. */
  function OfKind(s: seq<Card>, k: CardType): (r: seq<Card>)
    ensures forall c :: c in r ==> c in s && c.kind == k
  {
    if s == [] then []
    else if s[0].kind == k then [s[0]] + OfKind(s[1..], k)
    else OfKind(s[1..], k)
  }

  /** Places `c` in front of the first card that does not rank below it, so that `c`
      stays ahead of the cards of its own kind. */
  function Insert(c: Card, s: seq<Card>): (r: seq<Card>)
    ensures multiset(r) == multiset(s) + multiset{c}
    ensures |r| == |s| + 1
  {
    if s == [] || Rank(c.kind) <= Rank(s[0].kind) then [c] + s
    else
      assert s == [s[0]] + s[1..];
      [s[0]] + Insert(c, s[1..])
  }

  lemma {:induction false} InsertSorted(c: Card, s: seq<Card>)
    requires SortedByRank(s)
    ensures SortedByRank(Insert(c, s))
    ensures Insert(c, s) != [] && (Insert(c, s)[0] == c || (s != [] && Insert(c, s)[0] == s[0]))
  {
    if s == [] || Rank(c.kind) <= Rank(s[0].kind) {
    } else {
      InsertSorted(c, s[1..]);
      var t := Insert(c, s[1..]);
      assert Insert(c, s) == [s[0]] + t;
      forall j | 0 <= j < |t| ensures Rank(s[0].kind) <= Rank(t[j].kind) {
        assert t[j] in multiset(t);
        assert t[j] == c || t[j] in multiset(s[1..]);
        if t[j] != c {
          var m :| 0 <= m < |s[1..]| && s[1..][m] == t[j];
          assert s[1 + m] == t[j];
        }
      }
    }
  }

  lemma {:induction false} InsertOfKind(c: Card, s: seq<Card>, k: CardType)
    ensures OfKind(Insert(c, s), k) == if c.kind == k then [c] + OfKind(s, k) else OfKind(s, k)
  {
    if s == [] || Rank(c.kind) <= Rank(s[0].kind) {
      var r := [c] + s;
      assert r[0] == c && r[1..] == s;
    } else {
      InsertOfKind(c, s[1..], k);
      var r := [s[0]] + Insert(c, s[1..]);
      assert r[0] == s[0] && r[1..] == Insert(c, s[1..]);
      RankInjective(c.kind, s[0].kind);
      if s[0].kind == k {
        assert c.kind != k;
      }
    }
  }

  /** `sortCards`: `[...cards].sort` by rank, an insertion sort from the back of the list.
      Array.prototype.sort is stable, and so is this. */
  function SortCards(cards: seq<Card>): (r: seq<Card>)
    ensures multiset(r) == multiset(cards)
    ensures |r| == |cards|
  {
    if cards == [] then []
    else
      assert cards == [cards[0]] + cards[1..];
      Insert(cards[0], SortCards(cards[1..]))
  }

  /** The sorted hand is in rank order: camels, then diamond, gold, silver, cloth, spice, leather. */
  lemma {:induction false} SortCardsSorted(cards: seq<Card>)
    ensures SortedByRank(SortCards(cards))
  {
    if cards != [] {
      SortCardsSorted(cards[1..]);
      InsertSorted(cards[0], SortCards(cards[1..]));
    }
  }

  /** Sorting is stable: the cards of each kind keep the order they had in the input. */
  lemma {:induction false} SortCardsStable(cards: seq<Card>, k: CardType)
    ensures OfKind(SortCards(cards), k) == OfKind(cards, k)
  {
    if cards != [] {
      SortCardsStable(cards[1..], k);
      InsertOfKind(cards[0], SortCards(cards[1..]), k);
    }
  }

  lemma OfKindHead(s: seq<Card>)
    requires s != []
    ensures OfKind(s, s[0].kind) != [] && OfKind(s, s[0].kind)[0] == s[0]
  {
  }

  /** In rank order, the first card ranks no higher than any card in the list. */
  lemma SortedFirst(s: seq<Card>, c: Card)
    requires SortedByRank(s) && c in s
    ensures Rank(s[0].kind) <= Rank(c.kind)
  {
    var i :| 0 <= i < |s| && s[i] == c;
  }

  /** Two rank-ordered lists that agree kind by kind start with the same card. */
  lemma SameFirst(a: seq<Card>, b: seq<Card>)
    requires SortedByRank(a) && SortedByRank(b) && a != [] && b != []
    requires OfKind(a, a[0].kind) == OfKind(b, a[0].kind)
    requires OfKind(a, b[0].kind) == OfKind(b, b[0].kind)
    ensures a[0] == b[0]
  {
    var k0, k1 := a[0].kind, b[0].kind;
    OfKindHead(a);
    OfKindHead(b);
    SortedFirst(a, b[0]);
    SortedFirst(b, a[0]);
    RankInjective(k0, k1);
  }

  /** Dropping a common first card keeps two lists in agreement on kind `k`. */
  lemma SameRest(a: seq<Card>, b: seq<Card>, k: CardType)
    requires a != [] && b != [] && a[0] == b[0]
    requires OfKind(a, k) == OfKind(b, k)
    ensures OfKind(a[1..], k) == OfKind(b[1..], k)
  {
    var p: seq<Card> := if a[0].kind == k then [a[0]] else [];
    var x, y := OfKind(a[1..], k), OfKind(b[1..], k);
    assert OfKind(a, k) == p + x && OfKind(b, k) == p + y;
    assert (p + x)[|p|..] == x && (p + y)[|p|..] == y;
  }

  /** Two rank-ordered lists that agree, kind by kind, on the order of their cards are
      the same list. */
  lemma {:induction false} SortedUnique(a: seq<Card>, b: seq<Card>)
    requires SortedByRank(a) && SortedByRank(b)
    requires forall k :: OfKind(a, k) == OfKind(b, k)
    ensures a == b
    decreases |a|
  {
    if a == [] {
      if b != [] {
        OfKindHead(b);
        assert false;
      }
    } else if b == [] {
      OfKindHead(a);
      assert false;
    } else {
      SameFirst(a, b);
      forall k ensures OfKind(a[1..], k) == OfKind(b[1..], k) {
        SameRest(a, b, k);
      }
      SortedUnique(a[1..], b[1..]);
      assert a == [a[0]] + a[1..] && b == [b[0]] + b[1..];
    }
  }

  /** `SortCards` is the one stable ordering by rank: any rank-ordered list that keeps the
      order of each kind's cards is exactly it. */
  lemma SortCardsUnique(cards: seq<Card>, r: seq<Card>)
    requires SortedByRank(r)
    requires forall k :: OfKind(r, k) == OfKind(cards, k)
    ensures r == SortCards(cards)
  {
    SortCardsSorted(cards);
    forall k ensures OfKind(SortCards(cards), k) == OfKind(cards, k) {
      SortCardsStable(cards, k);
    }
    SortedUnique(r, SortCards(cards));
  }

  const DefaultColor: string := "bg-gray-500"

  /** `getCardColor`: the colour class for a card type name, the grey default for any
      other string. */
  function CardColor(cardType: string): (r: string)
    ensures r == DefaultColor <==> forall k :: TypeName(k) != cardType
  {
    assert TypeName(Diamond) == "diamond" && TypeName(Gold) == "gold" && TypeName(Silver) == "silver";
    assert TypeName(Cloth) == "cloth" && TypeName(Spice) == "spice" && TypeName(Leather) == "leather";
    assert TypeName(Camel) == "camel";
    if cardType == "diamond" then "bg-blue-500"
    else if cardType == "gold" then "bg-yellow-500"
    else if cardType == "silver" then "bg-gray-400"
    else if cardType == "cloth" then "bg-purple-500"
    else if cardType == "spice" then "bg-red-500"
    else if cardType == "leather" then "bg-amber-700"
    else if cardType == "camel" then "bg-orange-500"
    else DefaultColor
  }

  /** Every card type has a colour of its own. */
  lemma CardColorsDistinct(k1: CardType, k2: CardType)
    requires k1 != k2
    ensures CardColor(TypeName(k1)) != CardColor(TypeName(k2))
  {
  }

  /** `toUpperCase` on one character, for the ASCII letters. */
  function UpperChar(c: char): char
  {
    if 'a' <= c <= 'z' then (c as int - 32) as char else c
  }

  /** `getCardLabel`: the type name with its first character upper-cased. */
  function CardLabel(cardType: string): (r: string)
    ensures |r| == |cardType|
    ensures cardType != [] ==> r[0] == UpperChar(cardType[0]) && r[1..] == cardType[1..]
  {
    if cardType == [] then [] else [UpperChar(cardType[0])] + cardType[1..]
  }

  /** Labelling a label changes nothing. */
  lemma CardLabelIdempotent(cardType: string)
    ensures CardLabel(CardLabel(cardType)) == CardLabel(cardType)
  {
  }

  /** The label of a card type starts with a capital letter. */
  lemma CardLabelCapital(k: CardType)
    ensures 'A' <= CardLabel(TypeName(k))[0] <= 'Z'
  {
  }
}
