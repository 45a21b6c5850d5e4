/** The fourteen combo types of the game, the shape each one demands of a
    group of cards, and get_combo_type. The five shapes the source tests by
    position (single, pair, triplet, bomb, rocket) are written as the source
    writes them; the others are stated over the rank -> count signature of the
    group, and the Classifier module proves that the source's counting loops
    compute exactly these predicates. */
module Shapes {
  import opened Ranks

  /** The entries of DEFINED_COMBOS, plus the "invalid combo" answer. */
  datatype ComboKind =
    | Single
    | SequenceOfSingles
    | Pair
    | SequenceOfPairs
    | Triplet
    | TripletWithSingle
    | TripletWithPair
    | SequenceOfTriplets
    | SequenceOfTripletsWithSingles
    | SequenceOfTripletsWithPairs
    | QuadWithTwoSingles
    | QuadWithTwoPairs
    | Bomb
    | Rocket
    | InvalidCombo

  /** DEFINED_COMBOS, in the order the computer tries them on a new round. */
  const DEFINED_COMBOS: seq<ComboKind> := [
    Single, SequenceOfSingles, Pair, SequenceOfPairs, Triplet,
    TripletWithSingle, TripletWithPair, SequenceOfTriplets,
    SequenceOfTripletsWithSingles, SequenceOfTripletsWithPairs,
    QuadWithTwoSingles, QuadWithTwoPairs, Bomb, Rocket
  ]

  // The shapes tested by position.

  /** is_single: one card of any rank. */
  function IsSingle(c: seq<Card>): (b: bool)
    ensures b <==> |c| == 1 && AllValid(c)
  {
    |c| == 1 && ValidCard(c[0])
  }

  /** is_pair: two copies of one rank. */
  function IsPair(c: seq<Card>): (b: bool)
    ensures b <==> |c| == 2 && AllValid(c) && AllCount(multiset(c), 2)
  {
    if |c| != 2 then false
    else
      assert multiset(c) == multiset{c[0], c[1]} by {
        assert c == [c[0]] + [c[1]];
      }
      AllValid(c) && c[0] == c[1]
  }

  /** is_triplet: three copies of one rank. */
  function IsTriplet(c: seq<Card>): (b: bool)
    ensures b <==> |c| == 3 && AllValid(c) && AllCount(multiset(c), 3)
  {
    if |c| != 3 then false
    else
      TripletCounts(c);
      AllValid(c) && c[0] == c[1] && c[1] == c[2]
  }

  lemma TripletCounts(c: seq<Card>)
    requires |c| == 3
    ensures c[0] == c[1] && c[1] == c[2] <==> AllCount(multiset(c), 3)
  {
    var m := multiset(c);
    assert m == multiset{c[0]} + multiset{c[1]} + multiset{c[2]} by {
      assert c == [c[0]] + [c[1]] + [c[2]];
    }
    if AllCount(m, 3) {
      var y := c[0];
      assert y in m;
      assert m[y] == 3;
    }
  }

  /** is_bomb: four copies of one rank. */
  function IsBomb(c: seq<Card>): (b: bool)
    ensures b <==> |c| == 4 && AllValid(c) && AllCount(multiset(c), 4)
  {
    if |c| != 4 then false
    else
      BombCounts(c);
      AllValid(c) && c[0] == c[1] && c[1] == c[2] && c[2] == c[3]
  }

  lemma BombCounts(c: seq<Card>)
    requires |c| == 4
    ensures c[0] == c[1] && c[1] == c[2] && c[2] == c[3] <==> AllCount(multiset(c), 4)
  {
    var m := multiset(c);
    assert m == multiset{c[0]} + multiset{c[1]} + multiset{c[2]} + multiset{c[3]} by {
      assert c == [c[0]] + [c[1]] + [c[2]] + [c[3]];
    }
    if AllCount(m, 4) {
      var y := c[0];
      assert y in m;
      assert m[y] == 4;
    }
  }

  /** is_rocket: the two jokers. */
  function IsRocket(c: seq<Card>): (b: bool)
    ensures b <==> multiset(c) == multiset{BLACK_JOKER, RED_JOKER}
  {
    if |c| != 2 then
      assert |multiset(c)| != 2;
      false
    else
      RocketPair(c);
      AllValid(c) && BLACK_JOKER in c && RED_JOKER in c
  }

  lemma RocketPair(c: seq<Card>)
    requires |c| == 2
    ensures BLACK_JOKER in c && RED_JOKER in c <==> multiset(c) == multiset{BLACK_JOKER, RED_JOKER}
  {
    assert c == [c[0], c[1]];
    assert multiset(c) == multiset{c[0], c[1]};
    if multiset(c) == multiset{BLACK_JOKER, RED_JOKER} {
      assert BLACK_JOKER in multiset(c) && RED_JOKER in multiset(c);
    }
  }

  // The shapes tested by counting ranks.

  /** Neither a "2" nor a joker: the ranks a plain sequence may use. */
  predicate NoTwosOrJokers(c: seq<Card>) {
    TWO !in c && BLACK_JOKER !in c && RED_JOKER !in c
  }

  /** is_sequence_of_singles: at least five cards, one of each rank of an
      unbroken run below "2". */
  predicate SequenceOfSinglesShape(c: seq<Card>) {
    var m := multiset(c);
    AllValid(c) && |c| >= 5 && NoTwosOrJokers(c) && AllCount(m, 1) && IsInterval(RankSet(m))
  }

  /** is_sequence_of_pairs: two of each rank of an unbroken run of at least
      three ranks below "2". */
  predicate SequenceOfPairsShape(c: seq<Card>) {
    var m := multiset(c);
    AllValid(c) && NoTwosOrJokers(c) && AllCount(m, 2) && |RankSet(m)| >= 3 && IsInterval(RankSet(m))
  }

  /** is_triplet_with_single: three of one rank and one of another. */
  predicate TripletWithSingleShape(c: seq<Card>) {
    var m := multiset(c);
    |c| == 4 && AllValid(c) && CountsIn(m, 3, 1)
    && |RanksWithCount(m, 3)| == 1 && |RanksWithCount(m, 1)| == 1
  }

  /** is_triplet_with_pair: three of one rank and two of another. */
  predicate TripletWithPairShape(c: seq<Card>) {
    var m := multiset(c);
    |c| == 5 && AllValid(c) && CountsIn(m, 3, 2)
    && |RanksWithCount(m, 3)| == 1 && |RanksWithCount(m, 2)| == 1
  }

  /** is_sequence_of_triplets: three of each rank of an unbroken run of at
      least two ranks below "2". */
  predicate SequenceOfTripletsShape(c: seq<Card>) {
    var m := multiset(c);
    AllValid(c) && NoTwosOrJokers(c) && AllCount(m, 3) && |RankSet(m)| >= 2 && IsInterval(RankSet(m))
  }

  /** is_sequence_of_triplets_with_singles: triplets over an unbroken run of at
      least two ranks without "2", and as many lone cards of other ranks, not
      both jokers among them. Only "2" is barred from the triplets. */
  predicate SequenceOfTripletsWithSinglesShape(c: seq<Card>) {
    var m := multiset(c);
    var triplets := RanksWithCount(m, 3);
    var singles := RanksWithCount(m, 1);
    AllValid(c) && CountsIn(m, 3, 1) && |triplets| == |singles| && TWO !in triplets
    && !(BLACK_JOKER in singles && RED_JOKER in singles)
    && |triplets| >= 2 && IsInterval(triplets)
  }

  /** is_sequence_of_triplets_with_pairs: triplets over an unbroken run of at
      least two ranks without "2", and as many pairs of other ranks. */
  predicate SequenceOfTripletsWithPairsShape(c: seq<Card>) {
    var m := multiset(c);
    var triplets := RanksWithCount(m, 3);
    AllValid(c) && CountsIn(m, 3, 2) && |triplets| == |RanksWithCount(m, 2)| && TWO !in triplets
    && |triplets| >= 2 && IsInterval(triplets)
  }

  /** is_quad_with_two_singles: four of one rank and two lone cards of two
      other ranks, not both jokers. */
  predicate QuadWithTwoSinglesShape(c: seq<Card>) {
    var m := multiset(c);
    |c| == 6 && AllValid(c) && !(BLACK_JOKER in c && RED_JOKER in c) && CountsIn(m, 4, 1)
    && |RanksWithCount(m, 4)| == 1 && |RanksWithCount(m, 1)| == 2
  }

  /** is_quad_with_two_pairs: four of one rank and two pairs of two other ranks. */
  predicate QuadWithTwoPairsShape(c: seq<Card>) {
    var m := multiset(c);
    |c| == 8 && AllValid(c) && CountsIn(m, 4, 2)
    && |RanksWithCount(m, 4)| == 1 && |RanksWithCount(m, 2)| == 2
  }

  /** The is_* predicate of each combo type; nothing has the "invalid" shape. */
  predicate HasShape(c: seq<Card>, k: ComboKind) {
    match k
    case Single => IsSingle(c)
    case SequenceOfSingles => SequenceOfSinglesShape(c)
    case Pair => IsPair(c)
    case SequenceOfPairs => SequenceOfPairsShape(c)
    case Triplet => IsTriplet(c)
    case TripletWithSingle => TripletWithSingleShape(c)
    case TripletWithPair => TripletWithPairShape(c)
    case SequenceOfTriplets => SequenceOfTripletsShape(c)
    case SequenceOfTripletsWithSingles => SequenceOfTripletsWithSinglesShape(c)
    case SequenceOfTripletsWithPairs => SequenceOfTripletsWithPairsShape(c)
    case QuadWithTwoSingles => QuadWithTwoSinglesShape(c)
    case QuadWithTwoPairs => QuadWithTwoPairsShape(c)
    case Bomb => IsBomb(c)
    case Rocket => IsRocket(c)
    case InvalidCombo => false
  }

  /** get_combo_type: the first of the is_* tests, in the source's order, that
      the group passes. */
  function GetComboType(c: seq<Card>): (r: ComboKind)
    ensures r != InvalidCombo ==> HasShape(c, r)
  {
    if IsSingle(c) then Single
    else if SequenceOfSinglesShape(c) then SequenceOfSingles
    else if IsPair(c) then Pair
    else if SequenceOfPairsShape(c) then SequenceOfPairs
    else if IsTriplet(c) then Triplet
    else if TripletWithSingleShape(c) then TripletWithSingle
    else if TripletWithPairShape(c) then TripletWithPair
    else if SequenceOfTripletsShape(c) then SequenceOfTriplets
    else if SequenceOfTripletsWithSinglesShape(c) then SequenceOfTripletsWithSingles
    else if SequenceOfTripletsWithPairsShape(c) then SequenceOfTripletsWithPairs
    else if QuadWithTwoSinglesShape(c) then QuadWithTwoSingles
    else if QuadWithTwoPairsShape(c) then QuadWithTwoPairs
    else if IsBomb(c) then Bomb
    else if IsRocket(c) then Rocket
    else InvalidCombo
  }

  // Mutual exclusion of the shapes.

  /** Reads a combo type off the count signature alone: which counts occur,
      how many ranks carry a triplet, how many ranks there are and the length. */
  ghost function Signature(c: seq<Card>): ComboKind {
    var m := multiset(c);
    if HasCount(m, 4) then
      if HasCount(m, 1) then QuadWithTwoSingles
      else if HasCount(m, 2) then QuadWithTwoPairs
      else Bomb
    else if HasCount(m, 3) then
      if HasCount(m, 1) then
        if |RanksWithCount(m, 3)| >= 2 then SequenceOfTripletsWithSingles else TripletWithSingle
      else if HasCount(m, 2) then
        if |RanksWithCount(m, 3)| >= 2 then SequenceOfTripletsWithPairs else TripletWithPair
      else if |RankSet(m)| >= 2 then SequenceOfTriplets
      else Triplet
    else if HasCount(m, 2) then
      if |RankSet(m)| >= 2 then SequenceOfPairs else Pair
    else if |c| == 1 then Single
    else if |c| == 2 then Rocket
    else SequenceOfSingles
  }

  lemma AllCountSignature(m: multiset<Card>, k: nat, x: Card)
    requires AllCount(m, k) && x in m
    ensures HasCount(m, k)
    ensures forall j | j != k :: !HasCount(m, j)
  {
    assert x in RanksWithCount(m, k);
    forall j | j != k ensures RanksWithCount(m, j) == {} {
      assert forall y :: y !in RanksWithCount(m, j);
    }
  }

  lemma CountsInSignature(m: multiset<Card>, a: nat, b: nat)
    requires CountsIn(m, a, b)
    ensures forall j | j != a && j != b :: !HasCount(m, j)
  {
    forall j | j != a && j != b ensures RanksWithCount(m, j) == {} {
      assert forall y :: y !in RanksWithCount(m, j);
    }
  }

  lemma EmptyRankSet(c: seq<Card>)
    ensures |c| == 0 ==> |RankSet(multiset(c))| == 0
  {
    if |c| == 0 {
      assert RankSet(multiset(c)) == {};
    }
  }

  lemma SingletonRankSet(m: multiset<Card>, x: Card)
    requires x in m && forall y | y in m :: y == x
    ensures RankSet(m) == {x}
  {
    forall y ensures y in RankSet(m) <==> y == x {
      if y == x {
        assert y in m;
      }
    }
  }

  /** The signature of the one-rank shapes and the rocket. */
  lemma OneRankSignature(c: seq<Card>, k: ComboKind)
    requires k == Single || k == Pair || k == Triplet || k == Bomb || k == Rocket
    requires HasShape(c, k)
    ensures Signature(c) == k
  {
    var m := multiset(c);
    match k
    case Single =>
      assert m == multiset{c[0]} by {
        assert c == [c[0]];
      }
      AllCountSignature(m, 1, c[0]);
    case Pair =>
      AllCountSignature(m, 2, c[0]);
      assert c[0] in m;
      SingletonRankSet(m, c[0]);
    case Triplet =>
      AllCountSignature(m, 3, c[0]);
      assert c[0] in m;
      SingletonRankSet(m, c[0]);
    case Bomb =>
      AllCountSignature(m, 4, c[0]);
    case Rocket =>
      assert BLACK_JOKER in m;
      AllCountSignature(m, 1, BLACK_JOKER);
  }

  /** The signature of the plain sequences. */
  lemma RunSignature(c: seq<Card>, k: ComboKind)
    requires k == SequenceOfSingles || k == SequenceOfPairs || k == SequenceOfTriplets
    requires HasShape(c, k)
    ensures Signature(c) == k
  {
    var m := multiset(c);
    EmptyRankSet(c);
    match k
    case SequenceOfSingles =>
      AllCountSignature(m, 1, c[0]);
    case SequenceOfPairs =>
      AllCountSignature(m, 2, c[0]);
    case SequenceOfTriplets =>
      AllCountSignature(m, 3, c[0]);
  }

  /** The signature of the shapes with attachments. */
  lemma AttachedSignature(c: seq<Card>, k: ComboKind)
    requires k == TripletWithSingle || k == TripletWithPair || k == SequenceOfTripletsWithSingles
      || k == SequenceOfTripletsWithPairs || k == QuadWithTwoSingles || k == QuadWithTwoPairs
    requires HasShape(c, k)
    ensures Signature(c) == k
  {
    var m := multiset(c);
    match k
    case TripletWithSingle =>
      CountsInSignature(m, 3, 1);
    case TripletWithPair =>
      CountsInSignature(m, 3, 2);
    case SequenceOfTripletsWithSingles =>
      CountsInSignature(m, 3, 1);
    case SequenceOfTripletsWithPairs =>
      CountsInSignature(m, 3, 2);
    case QuadWithTwoSingles =>
      CountsInSignature(m, 4, 1);
    case QuadWithTwoPairs =>
      CountsInSignature(m, 4, 2);
  }

  /** Every shape is recognised by its signature, so no group has two shapes. */
  lemma ShapeSignature(c: seq<Card>, k: ComboKind)
    requires HasShape(c, k)
    ensures Signature(c) == k
  {
    if k == Single || k == Pair || k == Triplet || k == Bomb || k == Rocket {
      OneRankSignature(c, k);
    } else if k == SequenceOfSingles || k == SequenceOfPairs || k == SequenceOfTriplets {
      RunSignature(c, k);
    } else {
      AttachedSignature(c, k);
    }
  }

  /** The is_* predicates are pairwise disjoint. */
  lemma ShapesExclusive(c: seq<Card>, k1: ComboKind, k2: ComboKind)
    requires HasShape(c, k1) && HasShape(c, k2)
    ensures k1 == k2
  {
    ShapeSignature(c, k1);
    ShapeSignature(c, k2);
  }

  /** get_combo_type names a combo type exactly when the group has that shape,
      and answers "invalid combo" exactly when it has none. */
  lemma GetComboTypeIff(c: seq<Card>, k: ComboKind)
    ensures k != InvalidCombo ==> (GetComboType(c) == k <==> HasShape(c, k))
    ensures GetComboType(c) == InvalidCombo <==> forall j :: !HasShape(c, j)
  {
    if HasShape(c, k) && GetComboType(c) != InvalidCombo {
      ShapesExclusive(c, k, GetComboType(c));
    }
    if GetComboType(c) != InvalidCombo {
      assert HasShape(c, GetComboType(c));
    }
  }

  /** A group of a given shape is classified as that type. */
  lemma TypeOfShape(c: seq<Card>, k: ComboKind)
    requires HasShape(c, k)
    ensures GetComboType(c) == k
  {
    GetComboTypeIff(c, k);
  }

  /** The shapes, and so get_combo_type, ignore the order of the cards. */
  lemma ShapePermutation(a: seq<Card>, b: seq<Card>, k: ComboKind)
    requires multiset(a) == multiset(b)
    ensures HasShape(a, k) <==> HasShape(b, k)
  {
    AllValidPermutation(a, b);
    assert |a| == |multiset(a)| == |b|;
    assert forall x :: x in a <==> x in b by {
      forall x ensures x in a <==> x in b {
        assert x in a <==> x in multiset(a);
        assert x in b <==> x in multiset(b);
      }
    }
    assert IsSingle(a) <==> IsSingle(b);
    assert IsPair(a) <==> IsPair(b);
    assert IsTriplet(a) <==> IsTriplet(b);
    assert IsBomb(a) <==> IsBomb(b);
    assert IsRocket(a) <==> IsRocket(b);
    assert NoTwosOrJokers(a) <==> NoTwosOrJokers(b);
  }

  lemma GetComboTypePermutation(a: seq<Card>, b: seq<Card>)
    requires multiset(a) == multiset(b)
    ensures GetComboType(a) == GetComboType(b)
  {
    forall k ensures HasShape(a, k) <==> HasShape(b, k) {
      ShapePermutation(a, b, k);
    }
    GetComboTypeIff(a, GetComboType(b));
    GetComboTypeIff(b, GetComboType(a));
  }
}
