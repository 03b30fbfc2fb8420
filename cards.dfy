/** Playing cards and the 52-card deck built by `createDeck`. */
module Cards {

  datatype Suit = Spades | Hearts | Clubs | Diamonds

  datatype Rank = Two | Three | Four | Five | Six | Seven | Eight | Nine | Ten
                | Jack | Queen | King | Ace

  datatype Card = Card(suit: Suit, rank: Rank)

  datatype Option<T> = None | Some(value: T)

  /** The suit order of the deck builder: 'S', 'H', 'C', 'D'. */
  const Suits: seq<Suit> := [Spades, Hearts, Clubs, Diamonds]

  /** The rank order of the deck builder: '2' .. '10', 'J', 'Q', 'K', 'A'. */
  const Ranks: seq<Rank> := [Two, Three, Four, Five, Six, Seven, Eight, Nine, Ten,
                             Jack, Queen, King, Ace]

  const DeckSize: nat := 52

  predicate Distinct<T(==)>(s: seq<T>) {
    forall i, j :: 0 <= i < j < |s| ==> s[i] != s[j]
  }

  /** Position of a suit in `Suits`. */
  function SuitIndex(s: Suit): (i: nat)
    ensures i < |Suits| && Suits[i] == s
  {
    match s
    case Spades => 0
    case Hearts => 1
    case Clubs => 2
    case Diamonds => 3
  }

  /** Position of a rank in `Ranks`. */
  function RankIndex(r: Rank): (i: nat)
    ensures i < |Ranks| && Ranks[i] == r
  {
    match r
    case Two => 0
    case Three => 1
    case Four => 2
    case Five => 3
    case Six => 4
    case Seven => 5
    case Eight => 6
    case Nine => 7
    case Ten => 8
    case Jack => 9
    case Queen => 10
    case King => 11
    case Ace => 12
  }

  /** The thirteen cards the inner loop pushes for one suit. */
  function SuitRun(s: Suit): seq<Card> {
    seq(|Ranks|, r requires 0 <= r < |Ranks| => Card(s, Ranks[r]))
  }

  /** The cards pushed by the first `k` iterations of the outer loop. */
  function DeckPrefix(k: nat): seq<Card>
    requires k <= |Suits|
  {
    if k == 0 then [] else DeckPrefix(k - 1) + SuitRun(Suits[k - 1])
  }

  /** The deck in construction order, before the shuffle: every card exactly once. */
  function OrderedDeck(): (d: seq<Card>)
    ensures |d| == DeckSize
    ensures Distinct(d)
    ensures forall c: Card :: c in d
  {
    DeckPrefixShape(|Suits|);
    DeckPrefix(|Suits|)
  }

  lemma DeckPrefixShape(k: nat)
    requires k <= |Suits|
    ensures |DeckPrefix(k)| == 13 * k
    ensures forall c: Card :: c in DeckPrefix(k) <==> SuitIndex(c.suit) < k
    ensures Distinct(DeckPrefix(k))
  {
    DeckPrefixLength(k);
    DeckPrefixMembers(k);
    DeckPrefixDistinct(k);
  }

  lemma {:induction false} DeckPrefixLength(k: nat)
    requires k <= |Suits|
    ensures |DeckPrefix(k)| == 13 * k
  {
    if k > 0 {
      DeckPrefixLength(k - 1);
    }
  }

  /** The first k suits, all thirteen ranks of each. */
  lemma {:induction false} DeckPrefixMembers(k: nat)
    requires k <= |Suits|
    ensures forall c: Card :: c in DeckPrefix(k) <==> SuitIndex(c.suit) < k
  {
    if k > 0 {
      DeckPrefixMembers(k - 1);
      var run := SuitRun(Suits[k - 1]);
      forall c: Card | SuitIndex(c.suit) == k - 1 ensures c in run {
        assert run[RankIndex(c.rank)] == c;
      }
    }
  }

  lemma {:induction false} DeckPrefixDistinct(k: nat)
    requires k <= |Suits|
    ensures Distinct(DeckPrefix(k))
  {
    if k > 0 {
      DeckPrefixDistinct(k - 1);
      DeckPrefixMembers(k - 1);
      var p, run := DeckPrefix(k - 1), SuitRun(Suits[k - 1]);
      SuitRunDistinct(Suits[k - 1]);
      forall i, j | 0 <= i < j < |p + run| ensures (p + run)[i] != (p + run)[j] {
        if j >= |p| && i < |p| {
          assert (p + run)[i] in p;
        }
      }
    }
  }

  lemma SuitRunDistinct(s: Suit)
    ensures Distinct(SuitRun(s))
  {
    var run := SuitRun(s);
    forall i, j | 0 <= i < j < |run| ensures run[i] != run[j] {
      assert RankIndex(run[i].rank) == i;
      assert RankIndex(run[j].rank) == j;
    }
  }

  function Reversed<T>(s: seq<T>): seq<T> {
    seq(|s|, i requires 0 <= i < |s| => s[|s| - 1 - i])
  }

  /** `order` lists each position 0 .. n-1 exactly once. */
  predicate IsPermutation(order: seq<nat>, n: nat) {
    && |order| == n
    && (forall i :: 0 <= i < n ==> order[i] < n)
    && (forall j :: 0 <= j < n ==> j in order)
    && Distinct(order)
  }

  /** The deck reordered so that position i holds the card formerly at order[i]. */
  function Shuffle(deck: seq<Card>, order: seq<nat>): seq<Card>
    requires forall i :: 0 <= i < |order| ==> order[i] < |deck|
  {
    seq(|order|, i requires 0 <= i < |order| => deck[order[i]])
  }

  /** A shuffle by a permutation keeps the same cards, each once. */
  lemma ShuffleIsPermutation(deck: seq<Card>, order: seq<nat>)
    requires IsPermutation(order, |deck|) && Distinct(deck)
    ensures |Shuffle(deck, order)| == |deck|
    ensures Distinct(Shuffle(deck, order))
    ensures forall c :: c in Shuffle(deck, order) <==> c in deck
  {
    var d := Shuffle(deck, order);
    forall c | c in deck ensures c in d {
      var j :| 0 <= j < |deck| && deck[j] == c;
      assert j in order;
      var i :| 0 <= i < |order| && order[i] == j;
      assert d[i] == c;
    }
  }

  /**
   * createDeck: the nested loops push the 4 x 13 cards, then the shuffle reorders them.
   * The shuffle's random comparator is modelled as the permutation `order` it ends up applying.
   */
  method CreateDeck(order: seq<nat>) returns (d: seq<Card>)
    requires IsPermutation(order, DeckSize)
    ensures d == Shuffle(OrderedDeck(), order)
    ensures |d| == DeckSize && Distinct(d)
    ensures forall c: Card :: c in d
  {
    var built: seq<Card> := [];
    for s := 0 to |Suits|
      invariant built == DeckPrefix(s)
    {
      for r := 0 to |Ranks|
        invariant built == DeckPrefix(s) + SuitRun(Suits[s])[..r]
      {
        built := built + [Card(Suits[s], Ranks[r])];
      }
      assert SuitRun(Suits[s])[..|Ranks|] == SuitRun(Suits[s]);
    }
    assert built == OrderedDeck();
    ShuffleIsPermutation(built, order);
    d := Shuffle(built, order);
  }
}
