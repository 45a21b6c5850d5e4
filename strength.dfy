/** get_combo_rank, the strength of a combo within its type, and is_playable,
    the rule for beating the combo on the table. */
module Strength {
  import opened Results
  import opened Ranks
  import opened Tallies
  import opened Shapes
  import opened Classifier

  /** A non-empty set of ranks drawn from a valid group has a lowest rank. */
  lemma CountedRanksListed(c: seq<Card>, S: set<Card>)
    requires AllValid(c) && |S| > 0 && forall x | x in S :: x in multiset(c)
    ensures RankList(S) != []
  {
    SetWitness(S);
    var x :| x in S;
    assert x in multiset(c);
    ValidMembers(c);
    LowestDefined(S, x);
  }

  lemma SingletonSet(S: set<Card>, v: Card)
    requires |S| == 1 && v in S
    ensures S == {v}
  {
    var rest := S - {v};
    assert S == rest + {v};
    assert |rest| == 0;
  }

  /** The head of a sorted, valid, non-empty group is its lowest rank. */
  lemma SortedHeadLowest(s: seq<Card>, c: seq<Card>)
    requires Sorted(s) && AllValid(s) && s != [] && multiset(s) == multiset(c)
    ensures RankList(RankSet(multiset(c))) != [] && s[0] == Lowest(RankSet(multiset(c)))
  {
    var S := RankSet(multiset(c));
    assert s[0] in multiset(s);
    forall y | y in S && ValidCard(y) ensures s[0] <= y {
      assert y in multiset(s);
      SortedMin(s, y);
    }
    LowestUnique(S, s[0]);
  }

  /** The only member of a one-element set is its lowest rank. */
  lemma OnlyMemberLowest(S: set<Card>, v: Card)
    requires |S| == 1 && v in S && ValidCard(v)
    ensures RankList(S) != [] && Lowest(S) == v
  {
    SingletonSet(S, v);
    LowestUnique(S, v);
  }

  /** The types whose cards all share one rank. */
  predicate OneRankKind(k: ComboKind) {
    k == Single || k == Pair || k == Triplet || k == Bomb
  }

  /** The plain sequences. */
  predicate RunKind(k: ComboKind) {
    k == SequenceOfSingles || k == SequenceOfPairs || k == SequenceOfTriplets
  }

  /** The types built around one or more triplets with attachments. */
  predicate TripletBasedKind(k: ComboKind) {
    k == TripletWithSingle || k == TripletWithPair
    || k == SequenceOfTripletsWithSingles || k == SequenceOfTripletsWithPairs
  }

  /** The types built around a quad with attachments. */
  predicate QuadBasedKind(k: ComboKind) {
    k == QuadWithTwoSingles || k == QuadWithTwoPairs
  }

  /** Every shape but the rocket's is a non-empty group of valid cards. */
  lemma ValidShape(c: seq<Card>, k: ComboKind)
    requires HasShape(c, k) && k != Rocket
    ensures AllValid(c) && c != []
  {
    EmptyRankSet(c);
  }

  /** A shape with attachments has a rank of the count it is built around. */
  lemma AttachedRanked(c: seq<Card>, k: ComboKind)
    requires HasShape(c, k) && (TripletBasedKind(k) || QuadBasedKind(k))
    ensures TripletBasedKind(k) ==> RankList(RanksWithCount(multiset(c), 3)) != []
    ensures QuadBasedKind(k) ==> RankList(RanksWithCount(multiset(c), 4)) != []
  {
    var m := multiset(c);
    if TripletBasedKind(k) {
      CountedRanksListed(c, RanksWithCount(m, 3));
    } else {
      CountedRanksListed(c, RanksWithCount(m, 4));
    }
  }

  /** A plain sequence has a lowest rank. */
  lemma RunRanked(c: seq<Card>, k: ComboKind)
    requires HasShape(c, k) && RunKind(k)
    ensures RankList(RankSet(multiset(c))) != []
  {
    ValidShape(c, k);
    assert c[0] in RankSet(multiset(c));
    LowestDefined(RankSet(multiset(c)), c[0]);
  }

  /** get_combo_rank, stated: the strength of a combo within its type, or None
      for an invalid combo. Single, pair, triplet and bomb count by their rank;
      the plain sequences by their lowest rank; the triplet-based types by the
      (lowest) triplet rank; the quads by the quad rank; the rocket is worth
      the number of ranks in RANK_ORDER, above every rank. */
  function ComboRank(c: seq<Card>): (r: Option<int>)
    ensures r.Some? <==> GetComboType(c) != InvalidCombo
    ensures r.Some? ==> 0 <= r.value <= NUM_RANKS
    ensures r.Some? ==> (r.value == NUM_RANKS <==> GetComboType(c) == Rocket)
  {
    var k := GetComboType(c);
    var m := multiset(c);
    if k == InvalidCombo then None
    else if k == Rocket then Some(NUM_RANKS as int)
    else if OneRankKind(k) then
      ValidShape(c, k);
      Some(c[0])
    else if RunKind(k) then
      RunRanked(c, k);
      Some(Lowest(RankSet(m)))
    else if TripletBasedKind(k) then
      AttachedRanked(c, k);
      Some(Lowest(RanksWithCount(m, 3)))
    else
      assert QuadBasedKind(k);
      AttachedRanked(c, k);
      Some(Lowest(RanksWithCount(m, 4)))
  }

  /** What the strength of each type of combo is made of. */
  lemma ComboRankMeaning(c: seq<Card>)
    requires GetComboType(c) != InvalidCombo
    ensures var k, r, m := GetComboType(c), ComboRank(c).value, multiset(c);
      && (OneRankKind(k) ==> forall x | x in c :: x == r)
      && (RunKind(k) ==> r in c && forall x | x in c :: r <= x)
      && (TripletBasedKind(k) ==> m[r] == 3 && forall x | x in c && m[x] == 3 :: r <= x)
      && (QuadBasedKind(k) ==> m[r] == 4)
  {
    var k, r, m := GetComboType(c), ComboRank(c).value, multiset(c);
    ValidMembers(c);
    if OneRankKind(k) {
      OneRankMembers(c, k);
    } else if RunKind(k) {
      assert r in RankSet(m);
      forall x | x in c ensures r <= x {
        assert x in RankSet(m);
      }
    } else if TripletBasedKind(k) {
      assert r in RanksWithCount(m, 3);
      forall x | x in c && m[x] == 3 ensures r <= x {
        assert x in RanksWithCount(m, 3);
      }
    } else if QuadBasedKind(k) {
      assert r in RanksWithCount(m, 4);
    }
  }

  /** Every card of a one-rank combo is its first card. */
  lemma OneRankMembers(c: seq<Card>, k: ComboKind)
    requires OneRankKind(k) && HasShape(c, k)
    ensures forall x | x in c :: x == c[0]
  {
    forall x | x in c ensures x == c[0] {
      assert x in multiset(c) && c[0] in multiset(c);
    }
  }

  /** Reordering the cards of a combo changes neither its type nor its strength. */
  lemma ComboRankPermutation(a: seq<Card>, b: seq<Card>)
    requires multiset(a) == multiset(b)
    ensures ComboRank(a) == ComboRank(b)
  {
    GetComboTypePermutation(a, b);
    var k := GetComboType(a);
    if OneRankKind(k) {
      OneRankMembers(a, k);
      OneRankMembers(b, k);
      assert a[0] in multiset(b);
    }
  }

  /** get_combo_rank. Its chain of is_* tests is get_combo_type's chain, so
      the type is taken from GetComboType; each branch then computes the rank
      as the source does: get_rank(combo[0]), get_rank(sorted_cards(...)[0]),
      or the triplet or quad rank found by a loop over the rank -> count
      dictionary. */
  method GetComboRank(combo: seq<Card>) returns (r: Option<int>)
    ensures r == ComboRank(combo)
  {
    var k := GetComboType(combo);
    if k == InvalidCombo {
      return None;
    } else if k == Rocket {
      return Some(NUM_RANKS as int);
    }
    ValidShape(combo, k);
    if OneRankKind(k) {
      r := Some(combo[0]);
    } else if RunKind(k) {
      r := LowestOfSorted(combo);
    } else if k == TripletWithSingle || k == TripletWithPair {
      r := OnlyRankWithCount(combo, 3);
    } else if k == SequenceOfTripletsWithSingles || k == SequenceOfTripletsWithPairs {
      r := LowestTripletRank(combo);
    } else {
      r := OnlyRankWithCount(combo, 4);
    }
  }

  /** get_rank(sorted_cards(combo)[0]) for a non-empty valid combo. */
  method LowestOfSorted(combo: seq<Card>) returns (r: Option<int>)
    requires AllValid(combo) && combo != []
    ensures RankList(RankSet(multiset(combo))) != []
    ensures r == Some(Lowest(RankSet(multiset(combo))))
  {
    var sorted := SortedCards(combo);
    var s := sorted.value;
    AllValidPermutation(s, combo);
    SortedHeadLowest(s, combo);
    return Some(s[0]);
  }

  /** The dictionary loop that finds the rank held exactly k times, for a valid
      combo with exactly one such rank. */
  method OnlyRankWithCount(combo: seq<Card>, k: nat) returns (r: Option<int>)
    requires AllValid(combo) && |RanksWithCount(multiset(combo), k)| == 1
    ensures RankList(RanksWithCount(multiset(combo), k)) != []
    ensures r == Some(Lowest(RanksWithCount(multiset(combo), k)))
  {
    var counts := RankCounts(combo);
    var found := LastKeyWithCount(combo, counts, k);
    var v := found.value;
    assert v in multiset(combo);
    ValidMembers(combo);
    OnlyMemberLowest(RanksWithCount(multiset(combo), k), v);
    return Some(v);
  }

  /** get_rank(sorted_cards(triplet_ranks)[0]) for a valid combo holding at
      least one triplet. */
  method LowestTripletRank(combo: seq<Card>) returns (r: Option<int>)
    requires AllValid(combo) && |RanksWithCount(multiset(combo), 3)| > 0
    ensures RankList(RanksWithCount(multiset(combo), 3)) != []
    ensures r == Some(Lowest(RanksWithCount(multiset(combo), 3)))
  {
    var counts := RankCounts(combo);
    var tripletRanks := KeysWithCount(combo, counts, 3);
    ValidMembers(combo);
    assert AllValid(tripletRanks) by {
      forall i | 0 <= i < |tripletRanks| ensures ValidCard(tripletRanks[i]) {
        var x := tripletRanks[i];
        assert x in (set y | y in tripletRanks);
        assert x in RanksWithCount(multiset(combo), 3);
        assert x in multiset(combo);
      }
    }
    CountedRanksListed(combo, RanksWithCount(multiset(combo), 3));
    var sorted := SortDistinct(tripletRanks);
    return Some(sorted[0]);
  }

  /** is_playable: may `playing` be laid on `played` (None on a new round)?
      An invalid combo never; anything valid on a new round; nothing on a
      rocket; a rocket on anything else; a bomb on any non-bomb, or on a lower
      bomb; otherwise a stronger combo of the same type and length. */
  function IsPlayable(played: Option<seq<Card>>, playing: seq<Card>): (b: bool)
    ensures b ==> GetComboType(playing) != InvalidCombo
    ensures played.None? ==> (b <==> GetComboType(playing) != InvalidCombo)
  {
    if GetComboType(playing) == InvalidCombo then false
    else if played.None? then true
    else if IsRocket(played.value) then false
    else if IsRocket(playing) then true
    else if IsBomb(playing) then
      if !IsBomb(played.value) then true
      else
        assert HasShape(played.value, Bomb);
        GetComboTypeIff(played.value, Bomb);
        ComboRank(playing).value > ComboRank(played.value).value
    else if GetComboType(played.value) == GetComboType(playing) && |played.value| == |playing| then
      ComboRank(playing).value > ComboRank(played.value).value
    else false
  }

  /** The type of a group that passes one of the position tests. */
  lemma KnownTypes(c: seq<Card>)
    ensures IsRocket(c) ==> GetComboType(c) == Rocket
    ensures IsBomb(c) ==> GetComboType(c) == Bomb
  {
    if IsRocket(c) {
      GetComboTypeIff(c, Rocket);
    }
    if IsBomb(c) {
      GetComboTypeIff(c, Bomb);
    }
  }

  /** A rocket beats every combo but a rocket; nothing beats a rocket. */
  lemma RocketRules(played: seq<Card>, playing: seq<Card>)
    ensures IsRocket(playing) && !IsRocket(played) ==> IsPlayable(Some(played), playing)
    ensures IsRocket(played) ==> !IsPlayable(Some(played), playing)
  {
    KnownTypes(playing);
  }

  /** A bomb beats every combo that is neither a bomb nor a rocket. */
  lemma BombRules(played: seq<Card>, playing: seq<Card>)
    requires IsBomb(playing) && !IsBomb(played) && !IsRocket(played)
    ensures IsPlayable(Some(played), playing)
  {
    KnownTypes(playing);
  }

  /** A bomb on a bomb: the strength of a bomb is its rank, and a bomb beats
      another exactly when its rank is higher. */
  lemma BombVsBomb(played: seq<Card>, playing: seq<Card>)
    requires IsBomb(played) && IsBomb(playing)
    ensures ComboRank(played) == Some(played[0]) && ComboRank(playing) == Some(playing[0])
    ensures IsPlayable(Some(played), playing) <==> playing[0] > played[0]
  {
    KnownTypes(played);
    KnownTypes(playing);
    ComboRankMeaning(played);
    ComboRankMeaning(playing);
    assert played[0] in played && playing[0] in playing;
  }

  /** Unless a rocket or a bomb is involved, a valid combo beats another
      exactly when it has the same type, the same number of cards and a
      greater strength. */
  lemma SameTypeRule(played: seq<Card>, playing: seq<Card>)
    requires !IsRocket(played) && !IsRocket(playing) && !IsBomb(playing)
    ensures IsPlayable(Some(played), playing)
      <==> GetComboType(playing) != InvalidCombo && GetComboType(playing) == GetComboType(played)
           && |playing| == |played| && ComboRank(playing).value > ComboRank(played).value
  {
  }

  /** Beating is irreflexive. */
  lemma IsPlayableIrreflexive(c: seq<Card>)
    ensures !IsPlayable(Some(c), c)
  {
    KnownTypes(c);
  }

  /** Beating is transitive: is_playable orders combos strictly. */
  lemma IsPlayableTransitive(a: seq<Card>, b: seq<Card>, c: seq<Card>)
    requires IsPlayable(Some(a), b) && IsPlayable(Some(b), c)
    ensures IsPlayable(Some(a), c)
  {
    KnownTypes(a);
    KnownTypes(b);
    KnownTypes(c);
  }

  /** Beating is asymmetric: two combos never beat each other. */
  lemma IsPlayableAsymmetric(a: seq<Card>, b: seq<Card>)
    requires IsPlayable(Some(a), b)
    ensures !IsPlayable(Some(b), a)
  {
    if IsPlayable(Some(b), a) {
      IsPlayableTransitive(a, b, a);
      IsPlayableIrreflexive(a);
    }
  }

  /** Among singles, a card beats exactly the lower ranks. */
  lemma SinglesOrder(x: Card, y: Card)
    requires ValidCard(x) && ValidCard(y)
    ensures IsPlayable(Some([x]), [y]) <==> x < y
  {
    assert HasShape([x], Single) && HasShape([y], Single);
    GetComboTypeIff([x], Single);
    GetComboTypeIff([y], Single);
    KnownTypes([x]);
    KnownTypes([y]);
  }
}
