/** remove_combo_from_hand: take a played combo out of a player's hand, which
    the caller's list holds and the function changes in place. Both lists are
    checked for symbols outside RANK_ORDER, then the combo's cards are counted
    against the hand's; only when nothing is missing are the cards removed. */
module Hands {
  import opened Results
  import opened Ranks
  import opened Tallies

  /** The position list.remove searches for: the first occurrence of x. */
  function IndexOf(s: seq<Card>, x: Card): (i: nat)
    requires x in s
    ensures i < |s| && s[i] == x && x !in s[..i]
  {
    if s[0] == x then 0
    else
      assert s == [s[0]] + s[1..];
      var j := IndexOf(s[1..], x);
      assert s[..j + 1] == [s[0]] + s[1..][..j];
      j + 1
  }

  /** list.remove(x): delete the first occurrence of x, keeping the order of
      the rest. The source only calls it for a card the hand holds. */
  function RemoveFirst(s: seq<Card>, x: Card): (r: seq<Card>)
    requires x in s
    ensures multiset(r) == multiset(s) - multiset{x} && |r| == |s| - 1
  {
    var i := IndexOf(s, x);
    assert s == s[..i] + [x] + s[i + 1..];
    s[..i] + s[i + 1..]
  }

  /** The removal loop of remove_combo_from_hand (beat_the_landlord.py:943-944),
      run on a hand that holds the combo: each card of the combo goes exactly
      once, so the hand loses exactly the combo, as many cards as it holds. */
  function RemoveEach(hand: seq<Card>, combo: seq<Card>): (r: seq<Card>)
    requires multiset(combo) <= multiset(hand)
    ensures multiset(r) == multiset(hand) - multiset(combo)
    ensures |r| == |hand| - |combo|
  {
    if combo == [] then hand
    else
      var p, last := combo[..|combo| - 1], combo[|combo| - 1];
      assert combo == p + [last];
      assert multiset(combo) == multiset(p) + multiset{last};
      var rest := RemoveEach(hand, p);
      assert last in rest by {
        assert multiset(rest)[last] == multiset(hand)[last] - multiset(p)[last] > 0;
      }
      DifferenceStep(multiset(hand), multiset(p), last);
      RemoveFirst(rest, last)
  }

  lemma DifferenceStep(mh: multiset<Card>, mp: multiset<Card>, x: Card)
    ensures (mh - mp) - multiset{x} == mh - (mp + multiset{x})
  {
    forall y ensures ((mh - mp) - multiset{x})[y] == (mh - (mp + multiset{x}))[y] {
      if y == x {
        assert (mp + multiset{x})[y] == mp[y] + 1;
      } else {
        assert (mp + multiset{x})[y] == mp[y];
      }
    }
  }

  /** The copies of x that `need` holds beyond `have`. */
  function Lack(x: Card, need: multiset<Card>, have: multiset<Card>): seq<Card> {
    if have[x] < need[x] then Copies(x, need[x] - have[x]) else []
  }

  /** The shortfall of each rank of `ranks` in turn: the uncontained_cards
      list of the source. */
  function Shortfall(ranks: seq<Card>, need: multiset<Card>, have: multiset<Card>): seq<Card> {
    if ranks == [] then []
    else Shortfall(ranks[..|ranks| - 1], need, have) + Lack(ranks[|ranks| - 1], need, have)
  }

  lemma ShortfallStep(ranks: seq<Card>, i: nat, need: multiset<Card>, have: multiset<Card>)
    requires i < |ranks|
    ensures Shortfall(ranks[..i + 1], need, have) == Shortfall(ranks[..i], need, have) + Lack(ranks[i], need, have)
  {
    assert ranks[..i + 1][..i] == ranks[..i];
  }

  /** The cards of the combo that the hand lacks, in RANK_ORDER. */
  function Missing(combo: seq<Card>, hand: seq<Card>): seq<Card> {
    Shortfall(RankList(RankSet(multiset(combo))), multiset(combo), multiset(hand))
  }

  lemma LackFacts(x: Card, need: multiset<Card>, have: multiset<Card>)
    ensures forall y :: multiset(Lack(x, need, have))[y] == if y == x then (need - have)[y] else 0
    ensures forall y | y in Lack(x, need, have) :: y == x
  {
    if have[x] < need[x] {
      forall y ensures multiset(Lack(x, need, have))[y] == if y == x then (need - have)[y] else 0 {
        CopiesCount(x, need[x] - have[x], y);
      }
    }
  }

  lemma {:induction false} ShortfallCounts(ranks: seq<Card>, need: multiset<Card>, have: multiset<Card>)
    requires Increasing(ranks)
    ensures forall x :: multiset(Shortfall(ranks, need, have))[x] == if x in ranks then (need - have)[x] else 0
    ensures Sorted(Shortfall(ranks, need, have))
    ensures forall x | x in Shortfall(ranks, need, have) :: x in ranks
  {
    if ranks != [] {
      var p, last := ranks[..|ranks| - 1], ranks[|ranks| - 1];
      assert ranks == p + [last];
      ShortfallCounts(p, need, have);
      var front, tail := Shortfall(p, need, have), Lack(last, need, have);
      assert Shortfall(ranks, need, have) == front + tail;
      LackFacts(last, need, have);
      assert forall y | y in p :: y < last by {
        forall y | y in p ensures y < last {
          var k :| 0 <= k < |p| && p[k] == y;
          assert ranks[k] < ranks[|ranks| - 1];
        }
      }
      forall x ensures multiset(front + tail)[x] == if x in ranks then (need - have)[x] else 0 {
        assert x in ranks <==> x in p || x == last;
      }
      SortedSnoc(front, tail, last);
    }
  }

  /** The reported shortfall is exactly what the combo holds beyond the hand,
      in RANK_ORDER, and it is empty exactly when the hand holds the combo. */
  lemma MissingMeaning(combo: seq<Card>, hand: seq<Card>)
    requires AllValid(combo)
    ensures multiset(Missing(combo, hand)) == multiset(combo) - multiset(hand)
    ensures Sorted(Missing(combo, hand))
    ensures Missing(combo, hand) == [] <==> multiset(combo) <= multiset(hand)
  {
    var ranks := RankList(RankSet(multiset(combo)));
    ShortfallCounts(ranks, multiset(combo), multiset(hand));
    ValidMembers(combo);
    forall x ensures multiset(Missing(combo, hand))[x] == (multiset(combo) - multiset(hand))[x] {
      if x in multiset(combo) {
        assert x in RankSet(multiset(combo));
      }
    }
    if multiset(Missing(combo, hand)) == multiset{} {
      forall x ensures multiset(combo)[x] <= multiset(hand)[x] {
        assert (multiset(combo) - multiset(hand))[x] == 0;
      }
    } else {
      assert Missing(combo, hand) != [];
    }
  }

  /** remove_combo_from_hand as a function of the two lists: the hand that is
      left, or the ValueError it raises. */
  function RemovedFrom(combo: seq<Card>, hand: seq<Card>): Result<seq<Card>> {
    if !AllValid(combo) || !AllValid(hand) then Err(InvalidCard)
    else if Missing(combo, hand) != [] then Err(MissingCards(Missing(combo, hand)))
    else
      MissingMeaning(combo, hand);
      Ok(RemoveEach(hand, combo))
  }

  /** The removal succeeds exactly when both lists are valid and the hand
      holds every card of the combo; then every card of the combo goes once
      and nothing else, so putting the combo back restores the hand. When
      cards are missing the error lists exactly those, in RANK_ORDER. */
  lemma RemovalMeaning(combo: seq<Card>, hand: seq<Card>)
    ensures RemovedFrom(combo, hand).Ok? <==> AllValid(combo) && AllValid(hand) && multiset(combo) <= multiset(hand)
    ensures RemovedFrom(combo, hand).Err? && RemovedFrom(combo, hand).error != InvalidCard ==>
      var missing := RemovedFrom(combo, hand).error.cards;
      && missing != []
      && Sorted(missing)
      && multiset(missing) == multiset(combo) - multiset(hand)
    ensures RemovedFrom(combo, hand).Ok? ==>
      var rest := RemovedFrom(combo, hand).value;
      && multiset(rest) == multiset(hand) - multiset(combo)
      && multiset(rest) + multiset(combo) == multiset(hand)
      && |rest| == |hand| - |combo|
      && AllValid(rest)
  {
    if AllValid(combo) && AllValid(hand) {
      MissingMeaning(combo, hand);
      if multiset(combo) <= multiset(hand) {
        var rest := RemoveEach(hand, combo);
        ValidMembers(hand);
        forall i | 0 <= i < |rest| ensures ValidCard(rest[i]) {
          assert rest[i] in multiset(rest);
          assert rest[i] in multiset(hand);
        }
      }
    }
  }

  /** A prefix of the combo holds no card more often than the combo. */
  lemma PrefixWithin(combo: seq<Card>, i: nat)
    requires i <= |combo|
    ensures multiset(combo[..i]) <= multiset(combo)
  {
    assert combo == combo[..i] + combo[i..];
  }

  /** One turn of the removal loop: the cards removed so far, and the next
      one, are all in the hand, and the next card is still in what is left. */
  lemma RemoveStep(hand: seq<Card>, combo: seq<Card>, i: nat)
    requires multiset(combo) <= multiset(hand) && i < |combo|
    ensures multiset(combo[..i]) <= multiset(hand) && multiset(combo[..i + 1]) <= multiset(hand)
    ensures combo[i] in RemoveEach(hand, combo[..i])
  {
    PrefixWithin(combo, i);
    PrefixWithin(combo, i + 1);
    assert multiset(combo[..i + 1]) == multiset(combo[..i]) + multiset{combo[i]} by {
      assert combo[..i + 1] == combo[..i] + [combo[i]];
    }
    var rest := RemoveEach(hand, combo[..i]);
    assert multiset(rest)[combo[i]] > 0;
  }

  /** Removing one more card of the combo extends the removal by that card. */
  lemma RemoveUnfold(hand: seq<Card>, combo: seq<Card>, i: nat)
    requires i < |combo| && multiset(combo[..i + 1]) <= multiset(hand)
    requires multiset(combo[..i]) <= multiset(hand) && combo[i] in RemoveEach(hand, combo[..i])
    ensures RemoveEach(hand, combo[..i + 1]) == RemoveFirst(RemoveEach(hand, combo[..i]), combo[i])
  {
    assert combo[..i + 1][..i] == combo[..i];
  }

  /** What the two frequency dictionaries say about a rank of the combo. */
  lemma KeyCounts(combo: seq<Card>, hand: seq<Card>, card: Card)
    requires card in RankList(RankSet(multiset(combo)))
    ensures card in Tally(combo) && Tally(combo)[card] == multiset(combo)[card]
    ensures card in Tally(hand) ==> Tally(hand)[card] == multiset(hand)[card]
    ensures card !in Tally(hand) ==> multiset(hand)[card] == 0
  {
    TallyFacts(combo);
    TallyFacts(hand);
  }

  /** A player's hand, which remove_combo_from_hand updates in place. */
  class Hand {
    var cards: seq<Card>

    constructor(cards: seq<Card>)
      ensures this.cards == cards
    {
      this.cards := cards;
    }

    /** The inner range loops of the shortfall (beat_the_landlord.py:935-936,
        939-940): n copies of the card are appended, one at a time. */
    static method AppendCopies(uncontained: seq<Card>, card: Card, n: nat) returns (r: seq<Card>)
      ensures r == uncontained + Copies(card, n)
    {
      r := uncontained;
      for i := 0 to n
        invariant r == uncontained + Copies(card, i)
      {
        assert Copies(card, i + 1) == Copies(card, i) + [card];
        r := r + [card];
      }
    }

    /** One rank of the shortfall loop: the copies of `card` that the hand
        lacks, appended to the list. */
    static method AppendShortfall(uncontained: seq<Card>, card: Card, combo: seq<Card>, hand: seq<Card>,
                                  comboCounts: map<Card, nat>, handCounts: map<Card, nat>)
      returns (r: seq<Card>)
      requires comboCounts == Tally(combo) && handCounts == Tally(hand)
      requires card in RankList(RankSet(multiset(combo)))
      ensures r == uncontained + Lack(card, multiset(combo), multiset(hand))
    {
      KeyCounts(combo, hand, card);
      r := uncontained;
      if card !in handCounts {
        r := AppendCopies(uncontained, card, comboCounts[card]);
      } else if handCounts[card] < comboCounts[card] {
        r := AppendCopies(uncontained, card, comboCounts[card] - handCounts[card]);
      } else {
        assert uncontained + [] == uncontained;
      }
    }

    /** The shortfall loop over sorted_cards(list(combo_dict.keys())). */
    static method Uncontained(combo: seq<Card>, hand: seq<Card>) returns (uncontained: seq<Card>)
      requires AllValid(combo) && AllValid(hand)
      ensures uncontained == Missing(combo, hand)
    {
      var comboCounts := RankCounts(combo);
      var handCounts := RankCounts(hand);
      var keys := SortedKeys(combo);
      uncontained := [];
      var i := 0;
      while i < |keys|
        invariant i <= |keys|
        invariant uncontained == Shortfall(keys[..i], multiset(combo), multiset(hand))
      {
        ShortfallStep(keys, i, multiset(combo), multiset(hand));
        assert keys[i] in keys;
        uncontained := AppendShortfall(uncontained, keys[i], combo, hand, comboCounts, handCounts);
        i := i + 1;
      }
      assert keys[..|keys|] == keys;
    }

    /** remove_combo_from_hand(combo, self.cards): ValueError, with the hand
        untouched, when either list holds an invalid symbol or the hand lacks
        some of the combo's cards; otherwise each card of the combo is removed
        from the hand in turn. */
    method RemoveCombo(combo: seq<Card>) returns (r: Result<()>)
      modifies this
      ensures RemovedFrom(combo, old(cards)).Ok? ==> r == Ok(()) && cards == RemovedFrom(combo, old(cards)).value
      ensures RemovedFrom(combo, old(cards)).Err? ==> r == Err(RemovedFrom(combo, old(cards)).error) && cards == old(cards)
    {
      var comboOk := AllInRankOrder(combo);
      if !comboOk {
        return Err(InvalidCard);
      }
      var handOk := AllInRankOrder(cards);
      if !handOk {
        return Err(InvalidCard);
      }
      var uncontained := Uncontained(combo, cards);
      if |uncontained| != 0 {
        return Err(MissingCards(uncontained));
      }
      MissingMeaning(combo, cards);
      PrefixWithin(combo, 0);
      for i := 0 to |combo|
        invariant multiset(combo[..i]) <= multiset(old(cards))
        invariant cards == RemoveEach(old(cards), combo[..i])
      {
        RemoveStep(old(cards), combo, i);
        RemoveUnfold(old(cards), combo, i);
        cards := RemoveFirst(cards, combo[i]);
      }
      assert combo[..|combo|] == combo;
      return Ok(());
    }
  }
}
