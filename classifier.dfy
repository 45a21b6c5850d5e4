/** The is_* predicates that work by counting ranks, as the source writes
    them: loops over the group and over its rank -> count dictionary. Each is
    proved to compute the shape predicate of the same name in Shapes. */
module Classifier {
  import opened Ranks
  import opened Tallies
  import opened Shapes

  /** sorted_cards of a list of distinct valid ranks, followed by the adjacency
      loop: the ranks form an unbroken run. */
  method IsRun(ranks: seq<Card>) returns (ok: bool)
    requires AllValid(ranks) && Distinct(ranks)
    ensures ok <==> IsInterval(set x | x in ranks)
  {
    var sorted := SortDistinct(ranks);
    ValidMembers(ranks);
    assert AllValid(sorted) by {
      forall i | 0 <= i < |sorted| ensures ValidCard(sorted[i]) {
        assert sorted[i] in sorted;
      }
    }
    IncreasingConsecutiveIff(sorted, set x | x in ranks);
    ok := ConsecutiveRanks(sorted);
  }

  /** is_sequence_of_singles (beat_the_landlord.py:133-147). */
  method IsSequenceOfSingles(combo: seq<Card>) returns (b: bool)
    ensures b == SequenceOfSinglesShape(combo)
  {
    var valid := AllInRankOrder(combo);
    if !valid {
      return false;
    }
    if |combo| < 5 || TWO in combo || BLACK_JOKER in combo || RED_JOKER in combo {
      return false;
    }
    var r := SortedCards(combo);
    var sorted := r.value;
    AllValidPermutation(sorted, combo);
    SortedConsecutiveIff(sorted);
    b := ConsecutiveRanks(sorted);
  }

  /** The body shared by is_sequence_of_pairs and is_sequence_of_triplets: no
      "2" or joker, every rank exactly k times, at least minRanks ranks, and the
      ranks an unbroken run. */
  method IsPlainSequence(combo: seq<Card>, k: nat, minRanks: nat) returns (b: bool)
    ensures b <==> AllValid(combo) && NoTwosOrJokers(combo) && AllCount(multiset(combo), k)
                   && |RankSet(multiset(combo))| >= minRanks && IsInterval(RankSet(multiset(combo)))
  {
    var valid := AllInRankOrder(combo);
    if !valid {
      return false;
    }
    if TWO in combo || BLACK_JOKER in combo || RED_JOKER in combo {
      return false;
    }
    var counts := RankCounts(combo);
    var uniform := AllKeysCount(combo, counts, k);
    if !uniform {
      return false;
    }
    TallyFacts(combo);
    if |counts| < minRanks {
      return false;
    }
    var keys := TallyKeys(combo);
    ValidMembers(combo);
    assert AllValid(keys) by {
      forall i | 0 <= i < |keys| ensures ValidCard(keys[i]) {
        assert keys[i] in combo;
      }
    }
    assert (set x | x in keys) == RankSet(multiset(combo)) by {
      forall x ensures x in keys <==> x in multiset(combo) {
      }
    }
    b := IsRun(keys);
  }

  /** is_sequence_of_pairs (beat_the_landlord.py:160-186). */
  method IsSequenceOfPairs(combo: seq<Card>) returns (b: bool)
    ensures b == SequenceOfPairsShape(combo)
  {
    b := IsPlainSequence(combo, 2, 3);
  }

  /** is_sequence_of_triplets (beat_the_landlord.py:245-271). */
  method IsSequenceOfTriplets(combo: seq<Card>) returns (b: bool)
    ensures b == SequenceOfTripletsShape(combo)
  {
    b := IsPlainSequence(combo, 3, 2);
  }

  /** The body shared by the four fixed-size attachment shapes: `size` valid
      cards whose counts are all `base` or `attached`, with `bases` ranks of the
      first kind and `attachments` of the second. */
  method IsFixedAttachment(combo: seq<Card>, size: nat, base: nat, attached: nat, bases: nat, attachments: nat)
    returns (b: bool)
    ensures b <==> |combo| == size && AllValid(combo) && CountsIn(multiset(combo), base, attached)
                   && |RanksWithCount(multiset(combo), base)| == bases
                   && |RanksWithCount(multiset(combo), attached)| == attachments
  {
    if |combo| != size {
      return false;
    }
    var valid := AllInRankOrder(combo);
    if !valid {
      return false;
    }
    var counts := RankCounts(combo);
    var ok := CountsAmong(combo, counts, base, attached);
    if !ok {
      return false;
    }
    var countBase := CountValues(combo, counts, base);
    var countAttached := CountValues(combo, counts, attached);
    return countBase == bases && countAttached == attachments;
  }

  /** is_triplet_with_single (beat_the_landlord.py:199-220). */
  method IsTripletWithSingle(combo: seq<Card>) returns (b: bool)
    ensures b == TripletWithSingleShape(combo)
  {
    b := IsFixedAttachment(combo, 4, 3, 1, 1, 1);
  }

  /** is_triplet_with_pair (beat_the_landlord.py:222-243). */
  method IsTripletWithPair(combo: seq<Card>) returns (b: bool)
    ensures b == TripletWithPairShape(combo)
  {
    b := IsFixedAttachment(combo, 5, 3, 2, 1, 1);
  }

  /** is_quad_with_two_singles (beat_the_landlord.py:347-371): the joker test
      comes after the validity loop and before the counting. */
  method IsQuadWithTwoSingles(combo: seq<Card>) returns (b: bool)
    ensures b == QuadWithTwoSinglesShape(combo)
  {
    if |combo| != 6 {
      return false;
    }
    var valid := AllInRankOrder(combo);
    if !valid {
      return false;
    }
    if BLACK_JOKER in combo && RED_JOKER in combo {
      return false;
    }
    b := IsFixedAttachment(combo, 6, 4, 1, 1, 2);
  }

  /** is_quad_with_two_pairs (beat_the_landlord.py:373-395). */
  method IsQuadWithTwoPairs(combo: seq<Card>) returns (b: bool)
    ensures b == QuadWithTwoPairsShape(combo)
  {
    b := IsFixedAttachment(combo, 8, 4, 2, 1, 2);
  }

  /** The body shared by the two sequence-with-attachments shapes. */
  method IsSequenceWithAttachments(combo: seq<Card>, attached: nat, jokerRule: bool) returns (b: bool)
    requires attached != 3
    ensures b <==>
      var m := multiset(combo);
      var triplets := RanksWithCount(m, 3);
      var others := RanksWithCount(m, attached);
      AllValid(combo) && CountsIn(m, 3, attached) && |triplets| == |others| && TWO !in triplets
      && !(jokerRule && BLACK_JOKER in others && RED_JOKER in others)
      && |triplets| >= 2 && IsInterval(triplets)
  {
    var valid := AllInRankOrder(combo);
    if !valid {
      return false;
    }
    var counts := RankCounts(combo);
    var ok := CountsAmong(combo, counts, 3, attached);
    if !ok {
      return false;
    }
    var tripletRanks, otherRanks := SplitByCount(combo, counts, 3, attached);
    DistinctCard(tripletRanks);
    DistinctCard(otherRanks);
    if |tripletRanks| != |otherRanks| {
      return false;
    }
    if TWO in tripletRanks {
      return false;
    }
    if jokerRule && BLACK_JOKER in otherRanks && RED_JOKER in otherRanks {
      return false;
    }
    if |tripletRanks| < 2 {
      return false;
    }
    ValidMembers(combo);
    assert AllValid(tripletRanks) by {
      forall i | 0 <= i < |tripletRanks| ensures ValidCard(tripletRanks[i]) {
        var x := tripletRanks[i];
        assert x in (set y | y in tripletRanks);
        assert x in RanksWithCount(multiset(combo), 3);
        assert x in multiset(combo);
        assert x in combo;
      }
    }
    b := IsRun(tripletRanks);
  }

  /** is_sequence_of_triplets_with_singles (beat_the_landlord.py:273-309). */
  method IsSequenceOfTripletsWithSingles(combo: seq<Card>) returns (b: bool)
    ensures b == SequenceOfTripletsWithSinglesShape(combo)
  {
    b := IsSequenceWithAttachments(combo, 1, true);
  }

  /** is_sequence_of_triplets_with_pairs (beat_the_landlord.py:311-345). */
  method IsSequenceOfTripletsWithPairs(combo: seq<Card>) returns (b: bool)
    ensures b == SequenceOfTripletsWithPairsShape(combo)
  {
    b := IsSequenceWithAttachments(combo, 2, false);
  }
}
