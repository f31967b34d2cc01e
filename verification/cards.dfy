/** Cards and the standard 52-card deck the engine rebuilds for every hand. */
module Cards {

  /** A playing card as the engine stores it: one rank character and one suit character. */
  datatype Card = Card(rank: char, suit: char)

  /** The thirteen ranks, lowest first, and the four suits, in the order the deck is built. */
  const Ranks: string := "23456789TJQKA"
  const Suits: string := "shdc"
  const DeckSize: nat := 52

  /** The unshuffled deck: every rank paired with every suit, rank-major. */
  function FreshDeck(): (d: seq<Card>)
    ensures |d| == DeckSize
  {
    seq(DeckSize, i requires 0 <= i < DeckSize => Card(Ranks[i / 4], Suits[i % 4]))
  }

  /** No card occurs at two positions of `s`. */
  predicate Distinct(s: seq<Card>) {
    forall i, j :: 0 <= i < j < |s| ==> s[i] != s[j]
  }

  /** No card occurs twice in the multiset `m`. */
  ghost predicate NoRepeats(m: multiset<Card>) {
    forall c :: m[c] <= 1
  }

  /** `d` is one ordering of the fresh deck: what a shuffle of it may produce. */
  predicate IsShuffle(d: seq<Card>) {
    multiset(d) == multiset(FreshDeck())
  }

  function RankIndex(r: char): int {
    if r == '2' then 0 else if r == '3' then 1 else if r == '4' then 2
    else if r == '5' then 3 else if r == '6' then 4 else if r == '7' then 5
    else if r == '8' then 6 else if r == '9' then 7 else if r == 'T' then 8
    else if r == 'J' then 9 else if r == 'Q' then 10 else if r == 'K' then 11
    else if r == 'A' then 12 else -1
  }

  function SuitIndex(s: char): int {
    if s == 's' then 0 else if s == 'h' then 1 else if s == 'd' then 2
    else if s == 'c' then 3 else -1
  }

  lemma RankIndexInverts(k: nat)
    requires k < |Ranks|
    ensures RankIndex(Ranks[k]) == k
  {
  }

  lemma SuitIndexInverts(k: nat)
    requires k < |Suits|
    ensures SuitIndex(Suits[k]) == k
  {
  }

  /** A card is in the fresh deck exactly when its rank and suit are among the known ones,
      and the position that holds it is determined by them. */
  lemma FreshDeckPosition(i: nat)
    requires i < DeckSize
    ensures 4 * RankIndex(FreshDeck()[i].rank) + SuitIndex(FreshDeck()[i].suit) == i
  {
    RankIndexInverts(i / 4);
    SuitIndexInverts(i % 4);
  }

  /** The fresh deck holds 52 different cards. */
  lemma FreshDeckDistinct()
    ensures Distinct(FreshDeck())
  {
    var d := FreshDeck();
    forall i, j | 0 <= i < j < |d|
      ensures d[i] != d[j]
    {
      FreshDeckPosition(i);
      FreshDeckPosition(j);
    }
  }

  /** The fresh deck is complete: every rank/suit combination appears in it. */
  lemma FreshDeckComplete(c: Card)
    ensures c in FreshDeck() <==> c.rank in Ranks && c.suit in Suits
  {
    var d := FreshDeck();
    if c.rank in Ranks && c.suit in Suits {
      var r :| 0 <= r < |Ranks| && Ranks[r] == c.rank;
      var s :| 0 <= s < |Suits| && Suits[s] == c.suit;
      var i := 4 * r + s;
      assert i / 4 == r && i % 4 == s;
      assert d[i] == c;
    }
  }

  /** A sequence without repeated positions has every multiplicity at most one. */
  lemma {:induction false} DistinctHasNoRepeats(s: seq<Card>)
    requires Distinct(s)
    ensures NoRepeats(multiset(s))
  {
    if |s| > 0 {
      var init := s[..|s| - 1];
      var last := s[|s| - 1];
      assert s == init + [last];
      assert Distinct(init);
      DistinctHasNoRepeats(init);
      assert last !in init;
      forall c
        ensures multiset(s)[c] <= 1
      {
        assert multiset(s)[c] == multiset(init)[c] + multiset([last])[c];
      }
    }
  }

  /** Every shuffle of the fresh deck has 52 cards and holds each card at most once. */
  lemma ShuffleHasNoRepeats(d: seq<Card>)
    requires IsShuffle(d)
    ensures |d| == DeckSize
    ensures NoRepeats(multiset(d))
  {
    assert |multiset(d)| == |multiset(FreshDeck())|;
    FreshDeckDistinct();
    DistinctHasNoRepeats(FreshDeck());
  }

  /** Any part of the fresh deck holds each card at most once. */
  lemma PartOfDeckHasNoRepeats(m: multiset<Card>)
    requires m <= multiset(FreshDeck())
    ensures NoRepeats(m)
  {
    FreshDeckDistinct();
    DistinctHasNoRepeats(FreshDeck());
    forall c
      ensures m[c] <= 1
    {
      assert m[c] <= multiset(FreshDeck())[c];
    }
  }

  /** A multiset with multiplicities at most one comes from a sequence with distinct positions. */
  lemma NoRepeatsIsDistinct(s: seq<Card>)
    requires NoRepeats(multiset(s))
    ensures Distinct(s)
  {
    forall i, j | 0 <= i < j < |s|
      ensures s[i] != s[j]
    {
      assert s == s[..j] + s[j..];
      assert s[j..][0] == s[j];
      assert multiset(s)[s[j]] == multiset(s[..j])[s[j]] + multiset(s[j..])[s[j]];
      assert s[..j][i] == s[i];
    }
  }
}
