/** How far get_combos lists "all the possible combos" its docstring promises
    (beat_the_landlord.py:548-550). Every run the hand holds is one of the
    sequence windows, so the three plain sequence types are complete. The two
    sequence types with attachments are not: the classifier lets the jokers
    form the triplets, while the windows stop below "2". */
module Completeness {
  import opened Ranks
  import opened Shapes
  import opened Generation
  import opened GenerationFacts

  /** A run starting before `starts` whose ranks lie in S is among the windows
      of its length. */
  lemma {:induction false} WindowsOfLengthComplete(S: set<Card>, len: nat, starts: nat, lo: nat)
    requires len > 0 && starts + len <= STRAIGHT_END + 1
    requires lo < starts && RunSet(lo, len) <= S
    ensures Window(lo, len) in WindowsOfLength(S, len, starts)
  {
    if lo < starts - 1 {
      WindowsOfLengthComplete(S, len, starts - 1, lo);
    }
  }

  /** A run of a length between minLen and maxLen is among the windows up to maxLen. */
  lemma {:induction false} WindowsUpToComplete(S: set<Card>, minLen: nat, maxLen: nat, lo: nat, len: nat)
    requires 0 < minLen <= len <= maxLen <= STRAIGHT_END
    requires lo + len <= STRAIGHT_END && RunSet(lo, len) <= S
    ensures Window(lo, len) in WindowsUpTo(S, minLen, maxLen)
  {
    if len < maxLen {
      WindowsUpToComplete(S, minLen, maxLen - 1, lo, len);
    } else {
      WindowsOfLengthComplete(S, len, STRAIGHT_END + 1 - len, lo);
    }
  }

  /** The converse of WindowsMember: every run of at least minLen ranks below
      "2" whose ranks all lie in S is one of the sequence windows. */
  lemma WindowsComplete(S: set<Card>, minLen: nat, lo: nat, len: nat)
    requires 0 < minLen <= len && lo + len <= STRAIGHT_END && RunSet(lo, len) <= S
    ensures Window(lo, len) in Windows(S, minLen)
  {
    WindowsUpToComplete(S, minLen, STRAIGHT_END, lo, len);
  }

  /** Expanding a listed window gives a listed combo. */
  lemma ExpandAllComplete(ws: seq<seq<Card>>, k: nat, w: seq<Card>)
    requires w in ws
    ensures Expand(w, k) in ExpandAll(ws, k)
  {
    var i :| 0 <= i < |ws| && ws[i] == w;
    assert ExpandAll(ws, k)[i] == Expand(w, k);
  }

  /** The plain sequence types and the number of cards they hold per rank. */
  predicate PlainRunKind(kind: ComboKind) {
    kind == SequenceOfSingles || kind == SequenceOfPairs || kind == SequenceOfTriplets
  }

  function CopiesPerRank(kind: ComboKind): nat {
    if kind == SequenceOfSingles then 1 else if kind == SequenceOfPairs then 2 else 3
  }

  /** What the plain sequence shapes say about their cards. */
  lemma PlainRunFacts(c: seq<Card>, kind: ComboKind)
    requires PlainRunKind(kind) && HasShape(c, kind)
    ensures AllValid(c) && NoTwosOrJokers(c) && AllCount(multiset(c), CopiesPerRank(kind))
    ensures IsInterval(RankSet(multiset(c))) && c != []
  {
  }

  /** Sorting the ranks of a group that holds each rank k times and writing
      each k times gives back the group's cards. */
  lemma ExpandSorted(c: seq<Card>, k: nat)
    requires AllValid(c) && AllCount(multiset(c), k)
    ensures multiset(Expand(RankList(RankSet(multiset(c))), k)) == multiset(c)
  {
    var m := multiset(c);
    var w := RankList(RankSet(m));
    ValidMembers(c);
    forall x ensures multiset(Expand(w, k))[x] == m[x] {
      ExpandCount(w, k, x);
      if x in m {
        assert x in c;
        assert x in RankSet(m);
      }
    }
  }

  /** A non-empty run of ranks below "2" is a window, and sorting it gives
      that window. */
  lemma IntervalWindow(R: set<Card>) returns (lo: nat)
    requires IsInterval(R) && |R| > 0 && forall x | x in R :: x < STRAIGHT_END
    ensures lo + |R| <= STRAIGHT_END && RankList(R) == Window(lo, |R|)
  {
    var l :| 0 <= l <= NUM_RANKS && R == RunSet(l, |R|);
    WindowMembers(l, |R|);
    var top := l + |R| - 1;
    assert top in R;
    lo := l;
    var w := RankList(R);
    forall x ensures x in w <==> x in Window(lo, |R|) {
      if x in R {
        assert 0 <= x < STRAIGHT_END;
      }
    }
    IncreasingUnique(w, Window(lo, |R|));
  }

  /** The ranks of a plain sequence form a window below "2": sorting them
      gives that window, and writing each rank out again gives the cards. */
  lemma PlainRunWindow(c: seq<Card>, kind: ComboKind) returns (lo: nat)
    requires PlainRunKind(kind) && HasShape(c, kind)
    ensures var R := RankSet(multiset(c));
      && lo + |R| <= STRAIGHT_END && |R| > 0
      && RankList(R) == Window(lo, |R|)
      && multiset(Expand(RankList(R), CopiesPerRank(kind))) == multiset(c)
  {
    var m, k := multiset(c), CopiesPerRank(kind);
    var R := RankSet(m);
    PlainRunFacts(c, kind);
    ExpandSorted(c, k);
    assert c[0] in R by {
      assert c[0] in m;
    }
    ValidMembers(c);
    forall x | x in R ensures x < STRAIGHT_END {
      assert x in m;
      assert x in c;
    }
    lo := IntervalWindow(R);
  }

  /** get_combos lists every plain sequence the hand holds: for a combo of
      one of those shapes that the hand contains, the same cards in sorted
      order are one of the combos listed for its type. */
  lemma PlainSequencesComplete(hand: seq<Card>, c: seq<Card>, kind: ComboKind)
    requires PlainRunKind(kind) && HasShape(c, kind) && multiset(c) <= multiset(hand)
    ensures var g := Expand(RankList(RankSet(multiset(c))), CopiesPerRank(kind));
      g in Generate(hand, kind) && multiset(g) == multiset(c)
  {
    var m, mh, k := multiset(c), multiset(hand), CopiesPerRank(kind);
    var R := RankSet(m);
    var lo := PlainRunWindow(c, kind);
    var w := Window(lo, |R|);
    assert RankList(R) == w;
    ExpandLength(w, k);
    var held := if kind == SequenceOfSingles then RankSet(mh) else RanksAtLeast(mh, k);
    assert RunSet(lo, |R|) <= held by {
      forall x | x in RunSet(lo, |R|) ensures x in held {
        assert x in R;
        assert m[x] == k;
      }
    }
    if kind == SequenceOfSingles {
      assert |c| == |w|;
      WindowsComplete(held, 5, lo, |R|);
      ExpandOne(w);
    } else if kind == SequenceOfPairs {
      WindowsComplete(held, 3, lo, |R|);
      ExpandAllComplete(Windows(held, 3), 2, w);
    } else {
      WindowsComplete(held, 2, lo, |R|);
      ExpandAllComplete(Windows(held, 2), 3, w);
    }
  }

  /** No window lies among ranks at or above "2". */
  lemma {:induction false} NoLowWindows(S: set<Card>, len: nat, starts: nat)
    requires len > 0 && starts + len <= STRAIGHT_END + 1
    requires forall x | x in S :: x >= STRAIGHT_END
    ensures WindowsOfLength(S, len, starts) == []
  {
    if starts > 0 {
      NoLowWindows(S, len, starts - 1);
      assert starts - 1 in RunSet(starts - 1, len) by {
        assert Window(starts - 1, len)[0] == starts - 1;
      }
    }
  }

  lemma {:induction false} NoLowWindowsUpTo(S: set<Card>, minLen: nat, maxLen: nat)
    requires minLen > 0 && maxLen <= STRAIGHT_END
    requires forall x | x in S :: x >= STRAIGHT_END
    ensures WindowsUpTo(S, minLen, maxLen) == []
  {
    if maxLen >= minLen {
      NoLowWindowsUpTo(S, minLen, maxLen - 1);
      NoLowWindows(S, maxLen, STRAIGHT_END + 1 - maxLen);
    }
  }

  /** The two joker ranks are adjacent in RANK_ORDER, so they form a run. */
  lemma JokersInterval()
    ensures IsInterval({BLACK_JOKER, RED_JOKER}) && |{BLACK_JOKER, RED_JOKER}| == 2
  {
    var J := {BLACK_JOKER, RED_JOKER};
    WindowMembers(BLACK_JOKER, 2);
    assert |J| == 2;
    assert J == RunSet(BLACK_JOKER, |J|);
  }

  /** The joker triplets: three black jokers, three red jokers, a "3" and a
      "4". */
  function JokerTripletHand(): seq<Card> {
    [BLACK_JOKER, BLACK_JOKER, BLACK_JOKER, RED_JOKER, RED_JOKER, RED_JOKER, 0, 1]
  }

  /** The ranks the joker-triplet hand holds three times and once. */
  /** How often the hand above holds each rank. */
  lemma JokerTripletCounts()
    ensures var m := multiset(JokerTripletHand());
      && m[BLACK_JOKER] == 3 && m[RED_JOKER] == 3 && m[0] == 1 && m[1] == 1
      && forall x | x in m :: x == BLACK_JOKER || x == RED_JOKER || x == 0 || x == 1
  {
    var h := JokerTripletHand();
    var m := multiset(h);
    assert m[BLACK_JOKER] == 3 && m[RED_JOKER] == 3 && m[0] == 1 && m[1] == 1;
    forall x | x in m ensures x == BLACK_JOKER || x == RED_JOKER || x == 0 || x == 1 {
      assert x in h;
    }
  }

  lemma JokerTripletTallies()
    ensures var m := multiset(JokerTripletHand());
      && CountsIn(m, 3, 1)
      && RanksWithCount(m, 3) == {BLACK_JOKER, RED_JOKER}
      && RanksWithCount(m, 1) == {0, 1}
      && RanksAtLeast(m, 3) == {BLACK_JOKER, RED_JOKER}
  {
    JokerTripletCounts();
  }

  /** The joker-triplet hand has the shape of a sequence of triplets with
      singles: the two joker ranks are adjacent. */
  lemma JokerTripletShape()
    ensures SequenceOfTripletsWithSinglesShape(JokerTripletHand())
  {
    JokerTripletTallies();
    JokerHandsValid();
    JokersInterval();
  }

  /** Both joker hands hold only cards of RANK_ORDER. */
  lemma JokerHandsValid()
    ensures AllValid(JokerTripletHand()) && AllValid(JokerPairHand())
  {
  }

  /** The triplets-with-singles list is not complete for every hand. The hand
      above passes is_sequence_of_triplets_with_singles, since the jokers are
      adjacent in RANK_ORDER and only "2" is barred from the triplets
      (beat_the_landlord.py:299-308). Yet get_combos lists no such combo for
      it, because its windows never reach past "A" (beat_the_landlord.py:658-664).
      A deck holds one joker of each colour, so a dealt hand never holds such
      triplets. */
  lemma JokerTripletRun()
    ensures var h := JokerTripletHand();
      && SequenceOfTripletsWithSinglesShape(h)
      && GetComboType(h) == SequenceOfTripletsWithSingles
      && Generate(h, SequenceOfTripletsWithSingles) == []
  {
    var h := JokerTripletHand();
    JokerTripletShape();
    JokerTripletTallies();
    GetComboTypeIff(h, SequenceOfTripletsWithSingles);
    NoLowWindowsUpTo(RanksAtLeast(multiset(h), 3), 2, STRAIGHT_END);
  }

  /** The joker triplets with pairs: three black jokers, three red jokers,
      two "3"s and two "4"s. */
  function JokerPairHand(): seq<Card> {
    [BLACK_JOKER, BLACK_JOKER, BLACK_JOKER, RED_JOKER, RED_JOKER, RED_JOKER, 0, 0, 1, 1]
  }

  /** How often the hand above holds each rank. */
  lemma JokerPairCounts()
    ensures var m := multiset(JokerPairHand());
      && m[BLACK_JOKER] == 3 && m[RED_JOKER] == 3 && m[0] == 2 && m[1] == 2
      && forall x | x in m :: x == BLACK_JOKER || x == RED_JOKER || x == 0 || x == 1
  {
    var h := JokerPairHand();
    var m := multiset(h);
    assert m[BLACK_JOKER] == 3 && m[RED_JOKER] == 3 && m[0] == 2 && m[1] == 2;
    forall x | x in m ensures x == BLACK_JOKER || x == RED_JOKER || x == 0 || x == 1 {
      assert x in h;
    }
  }

  lemma JokerPairTallies()
    ensures var m := multiset(JokerPairHand());
      && CountsIn(m, 3, 2)
      && RanksWithCount(m, 3) == {BLACK_JOKER, RED_JOKER}
      && RanksWithCount(m, 2) == {0, 1}
      && RanksAtLeast(m, 3) == {BLACK_JOKER, RED_JOKER}
  {
    JokerPairCounts();
  }

  lemma JokerPairShape()
    ensures SequenceOfTripletsWithPairsShape(JokerPairHand())
  {
    JokerPairTallies();
    JokerHandsValid();
    JokersInterval();
  }

  /** The same gap for the triplets-with-pairs list: the hand above passes
      is_sequence_of_triplets_with_pairs (beat_the_landlord.py:337-345), yet
      get_combos lists no such combo for it (beat_the_landlord.py:695-701). */
  lemma JokerPairRun()
    ensures var h := JokerPairHand();
      && SequenceOfTripletsWithPairsShape(h)
      && GetComboType(h) == SequenceOfTripletsWithPairs
      && Generate(h, SequenceOfTripletsWithPairs) == []
  {
    var h := JokerPairHand();
    JokerPairShape();
    JokerPairTallies();
    GetComboTypeIff(h, SequenceOfTripletsWithPairs);
    NoLowWindowsUpTo(RanksAtLeast(multiset(h), 3), 2, STRAIGHT_END);
  }
}
