/** The hand model: validity checks, sorted_cards, and the rank -> count
    dictionaries the engine builds by walking the cards one at a time. */
module Tallies {
  import opened Results
  import opened Ranks

  /** The validity loop that opens most operations (beat_the_landlord.py:71-73,
      552-554): every card is looked up in RANK_ORDER. */
  method AllInRankOrder(cards: seq<Card>) returns (ok: bool)
    ensures ok <==> AllValid(cards)
  {
    for i := 0 to |cards|
      invariant AllValid(cards[..i])
    {
      if !ValidCard(cards[i]) {
        return false;
      }
    }
    assert cards[..|cards|] == cards;
    return true;
  }

  /** The cards of each rank below n, rank by rank: what sorted_cards has
      gathered after its first n passes over RANK_ORDER. */
  function BucketSort(cards: seq<Card>, n: nat): seq<Card> {
    if n == 0 then [] else BucketSort(cards, n - 1) + Copies(n - 1, multiset(cards)[n - 1])
  }

  /** The buckets come out in rank order, all below n. */
  lemma {:induction false} BucketSortSorted(cards: seq<Card>, n: nat)
    ensures Sorted(BucketSort(cards, n))
    ensures forall y | y in BucketSort(cards, n) :: 0 <= y < n
  {
    if n > 0 {
      BucketSortSorted(cards, n - 1);
      var front, bucket := BucketSort(cards, n - 1), Copies(n - 1, multiset(cards)[n - 1]);
      assert BucketSort(cards, n) == front + bucket;
      CopiesMembers(n - 1, multiset(cards)[n - 1]);
      SortedSnoc(front, bucket, n - 1);
    }
  }

  /** The buckets hold every card below n exactly as often as the input does. */
  lemma {:induction false} BucketSortCounts(cards: seq<Card>, n: nat, x: Card)
    ensures multiset(BucketSort(cards, n))[x] == if 0 <= x < n then multiset(cards)[x] else 0
  {
    if n > 0 {
      BucketSortCounts(cards, n - 1, x);
      var front, bucket := BucketSort(cards, n - 1), Copies(n - 1, multiset(cards)[n - 1]);
      assert multiset(BucketSort(cards, n)) == multiset(front) + multiset(bucket);
      CopiesCount(n - 1, multiset(cards)[n - 1], x);
    }
  }

  /** sorted_cards sorts and keeps every card: a permutation in RANK_ORDER. */
  lemma BucketSortPermutation(cards: seq<Card>)
    requires AllValid(cards)
    ensures Sorted(BucketSort(cards, NUM_RANKS))
    ensures multiset(BucketSort(cards, NUM_RANKS)) == multiset(cards)
  {
    BucketSortSorted(cards, NUM_RANKS);
    ValidMembers(cards);
    forall x ensures multiset(BucketSort(cards, NUM_RANKS))[x] == multiset(cards)[x] {
      BucketSortCounts(cards, NUM_RANKS, x);
      if !(0 <= x < NUM_RANKS) {
        assert x !in cards;
      }
    }
  }

  /** One pass of sorted_cards' inner loop (beat_the_landlord.py:76-78): every
      card equal to the current rank is appended to the result. */
  method CollectRank(cards: seq<Card>, rank: Card, result: seq<Card>) returns (r: seq<Card>)
    ensures r == result + Copies(rank, multiset(cards)[rank])
  {
    r := result;
    var j := 0;
    while j < |cards|
      invariant j <= |cards|
      invariant r == result + Copies(rank, multiset(cards[..j])[rank])
    {
      assert cards[..j + 1] == cards[..j] + [cards[j]];
      if cards[j] == rank {
        assert Copies(rank, multiset(cards[..j])[rank] + 1) == Copies(rank, multiset(cards[..j])[rank]) + [rank];
        r := r + [cards[j]];
      }
      j := j + 1;
    }
    assert cards[..|cards|] == cards;
  }

  /** sorted_cards: a bucket sort by rank index. Raises on a card outside
      RANK_ORDER; otherwise the result is the input in RANK_ORDER. */
  method SortedCards(cards: seq<Card>) returns (r: Result<seq<Card>>)
    ensures r.Ok? <==> AllValid(cards)
    ensures r.Err? ==> r.error == InvalidCard
    ensures r.Ok? ==> r.value == BucketSort(cards, NUM_RANKS)
    ensures r.Ok? ==> Sorted(r.value) && multiset(r.value) == multiset(cards)
  {
    var valid := AllInRankOrder(cards);
    if !valid {
      return Err(InvalidCard);
    }
    var result: seq<Card> := [];
    var rank := 0;
    while rank < NUM_RANKS
      invariant rank <= NUM_RANKS
      invariant result == BucketSort(cards, rank)
    {
      result := CollectRank(cards, rank, result);
      rank := rank + 1;
    }
    BucketSortPermutation(cards);
    return Ok(result);
  }

  /** The rank -> count dictionary of a group of cards. */
  function Tally(cards: seq<Card>): map<Card, nat> {
    map x | x in multiset(cards) :: multiset(cards)[x]
  }

  /** The frequency dictionary (beat_the_landlord.py:557-561): a new card
      enters with count one, a repeated card adds one to its count. */
  method RankCounts(cards: seq<Card>) returns (counts: map<Card, nat>)
    ensures counts == Tally(cards)
  {
    counts := map[];
    for i := 0 to |cards|
      invariant counts == Tally(cards[..i])
    {
      var card := cards[i];
      assert cards[..i + 1] == cards[..i] + [card];
      if card !in counts {
        counts := counts[card := 1];
      } else {
        counts := counts[card := counts[card] + 1];
      }
      assert counts == Tally(cards[..i + 1]) by {
        var before := multiset(cards[..i]);
        var after := multiset(cards[..i + 1]);
        assert after == before + multiset{card};
        forall x ensures x in counts <==> x in after {
        }
        forall x | x in counts ensures counts[x] == after[x] {
        }
      }
    }
    assert cards[..|cards|] == cards;
  }

  predicate Distinct(s: seq<Card>) {
    forall i, j | 0 <= i < j < |s| :: s[i] != s[j]
  }

  /** The key list of the frequency dictionary of `cards`: each card once, at its first
      occurrence, since a Python dictionary keeps its keys in insertion order. */
  method TallyKeys(cards: seq<Card>) returns (keys: seq<Card>)
    ensures forall x :: x in keys <==> x in cards
    ensures forall j | 0 <= j < |keys| :: keys[j] in cards
    ensures Distinct(keys)
  {
    keys := [];
    for i := 0 to |cards|
      invariant forall x :: x in keys <==> x in cards[..i]
      invariant Distinct(keys)
    {
      assert cards[..i + 1] == cards[..i] + [cards[i]];
      if cards[i] !in keys {
        keys := keys + [cards[i]];
      }
    }
    assert cards[..|cards|] == cards;
  }

  lemma {:induction false} DistinctCount(a: seq<Card>, x: Card)
    requires Distinct(a)
    ensures multiset(a)[x] == if x in a then 1 else 0
  {
    if a != [] {
      var p, last := a[..|a| - 1], a[|a| - 1];
      assert a == p + [last];
      DistinctCount(p, x);
      assert last !in p;
    }
  }

  /** sorted_cards applied to a list of distinct valid ranks gives those ranks in RANK_ORDER. */
  method SortDistinct(ranks: seq<Card>) returns (sorted: seq<Card>)
    requires AllValid(ranks) && Distinct(ranks)
    ensures sorted == RankList(set x | x in ranks)
  {
    var r := SortedCards(ranks);
    sorted := r.value;
    forall x | x in multiset(sorted) ensures multiset(sorted)[x] == 1 {
      DistinctCount(ranks, x);
    }
    SortedDistinct(sorted);
    forall x ensures x in sorted <==> x in RankList(set x | x in ranks) {
      assert x in sorted <==> x in multiset(sorted);
      assert x in ranks <==> x in multiset(ranks);
    }
    IncreasingUnique(sorted, RankList(set x | x in ranks));
  }

  /** sorted_cards(list(d.keys())) for the tally d of a group of valid cards:
      its distinct ranks in RANK_ORDER. */
  method SortedKeys(cards: seq<Card>) returns (sorted: seq<Card>)
    requires AllValid(cards)
    ensures sorted == RankList(RankSet(multiset(cards)))
  {
    var keys := TallyKeys(cards);
    assert AllValid(keys) by {
      forall i | 0 <= i < |keys| ensures ValidCard(keys[i]) {
        assert keys[i] in keys;
        var j :| 0 <= j < |cards| && cards[j] == keys[i];
      }
    }
    sorted := SortDistinct(keys);
    assert (set x | x in keys) == RankSet(multiset(cards)) by {
      forall x ensures x in keys <==> x in multiset(cards) {
      }
    }
  }

  /** The keys of the tally are the cards, and each maps to its count. */
  lemma TallyFacts(cards: seq<Card>)
    ensures forall x :: x in Tally(cards) <==> x in cards
    ensures forall x | x in Tally(cards) :: Tally(cards)[x] == multiset(cards)[x]
    ensures Tally(cards).Keys == RankSet(multiset(cards))
  {
    forall x ensures x in Tally(cards) <==> x in cards {
      assert x in cards <==> x in multiset(cards);
    }
  }

  lemma {:induction false} DistinctCard(a: seq<Card>)
    requires Distinct(a)
    ensures |set x | x in a| == |a|
  {
    if a != [] {
      var p, last := a[..|a| - 1], a[|a| - 1];
      assert a == p + [last];
      DistinctCard(p);
      assert (set x | x in a) == (set x | x in p) + {last};
      assert last !in p;
    }
  }

  /** The count filter (beat_the_landlord.py:214-216): fails as soon as a card
      is held neither a nor b times. */
  method CountsAmong(cards: seq<Card>, counts: map<Card, nat>, a: nat, b: nat) returns (ok: bool)
    requires counts == Tally(cards)
    ensures ok <==> CountsIn(multiset(cards), a, b)
  {
    TallyFacts(cards);
    for i := 0 to |cards|
      invariant forall j | 0 <= j < i :: counts[cards[j]] == a || counts[cards[j]] == b
    {
      if counts[cards[i]] != a && counts[cards[i]] != b {
        var x := cards[i];
        assert x in multiset(cards) && multiset(cards)[x] != a && multiset(cards)[x] != b;
        return false;
      }
    }
    forall x | x in multiset(cards) ensures multiset(cards)[x] == a || multiset(cards)[x] == b {
      var j :| 0 <= j < |cards| && cards[j] == x;
    }
    return true;
  }

  /** The count check (beat_the_landlord.py:176-178): fails as soon as a rank
      is held other than k times. */
  method AllKeysCount(cards: seq<Card>, counts: map<Card, nat>, k: nat) returns (ok: bool)
    requires counts == Tally(cards)
    ensures ok <==> AllCount(multiset(cards), k)
  {
    TallyFacts(cards);
    var keys := TallyKeys(cards);
    for i := 0 to |keys|
      invariant forall j | 0 <= j < i :: counts[keys[j]] == k
    {
      if counts[keys[i]] != k {
        var x := keys[i];
        assert x in multiset(cards) && multiset(cards)[x] != k;
        return false;
      }
    }
    forall x | x in multiset(cards) ensures multiset(cards)[x] == k {
      assert x in cards && x in keys;
      var j :| 0 <= j < |keys| && keys[j] == x;
    }
    return true;
  }

  /** counts_list.count(k) for counts_list = list(d.values()): how many ranks
      occur exactly k times. */
  method CountValues(cards: seq<Card>, counts: map<Card, nat>, k: nat) returns (n: nat)
    requires counts == Tally(cards)
    ensures n == |RanksWithCount(multiset(cards), k)|
  {
    TallyFacts(cards);
    var keys := TallyKeys(cards);
    n := 0;
    ghost var seen: seq<Card> := [];
    for i := 0 to |keys|
      invariant n == |seen| && Distinct(seen)
      invariant forall x :: x in seen <==> x in keys[..i] && counts[x] == k
    {
      assert keys[..i + 1] == keys[..i] + [keys[i]];
      if counts[keys[i]] == k {
        assert keys[i] !in keys[..i];
        n, seen := n + 1, seen + [keys[i]];
      }
    }
    assert keys[..|keys|] == keys;
    DistinctCard(seen);
    assert (set x | x in seen) == RanksWithCount(multiset(cards), k);
  }

  /** The split loop (beat_the_landlord.py:292-296): each rank of the dictionary
      goes to the first list when held a times, else to the second when held b
      times; so the ranks held exactly a and exactly b times, in dictionary order. */
  method SplitByCount(cards: seq<Card>, counts: map<Card, nat>, a: nat, b: nat)
    returns (withA: seq<Card>, withB: seq<Card>)
    requires counts == Tally(cards)
    ensures Distinct(withA) && (set x | x in withA) == RanksWithCount(multiset(cards), a)
    ensures a != b ==> Distinct(withB) && (set x | x in withB) == RanksWithCount(multiset(cards), b)
  {
    TallyFacts(cards);
    var keys := TallyKeys(cards);
    withA, withB := [], [];
    for i := 0 to |keys|
      invariant Distinct(withA) && Distinct(withB)
      invariant forall x :: x in withA <==> x in keys[..i] && counts[x] == a
      invariant forall x :: x in withB <==> x in keys[..i] && counts[x] == b && counts[x] != a
    {
      assert keys[..i + 1] == keys[..i] + [keys[i]];
      assert keys[i] !in keys[..i];
      if counts[keys[i]] == a {
        withA := withA + [keys[i]];
      } else if counts[keys[i]] == b {
        withB := withB + [keys[i]];
      }
    }
    assert keys[..|keys|] == keys;
    forall x ensures x in withA <==> x in RanksWithCount(multiset(cards), a) {
      assert x in keys <==> x in multiset(cards);
    }
    forall x ensures a != b ==> (x in withB <==> x in RanksWithCount(multiset(cards), b)) {
      assert x in keys <==> x in multiset(cards);
    }
  }

  /** The adjacency loop (beat_the_landlord.py:144-146): fails as soon as a rank
      is not one below the next. */
  method ConsecutiveRanks(s: seq<Card>) returns (ok: bool)
    ensures ok <==> Consecutive(s)
  {
    if |s| == 0 {
      return true;
    }
    for i := 0 to |s| - 1
      invariant forall j | 0 <= j < i :: s[j + 1] == s[j] + 1
    {
      if s[i] != s[i + 1] - 1 {
        return false;
      }
    }
    return true;
  }

  /** The triplet_ranks loop (beat_the_landlord.py:473-475): the ranks of the
      dictionary held exactly k times, in dictionary order. */
  method KeysWithCount(cards: seq<Card>, counts: map<Card, nat>, k: nat) returns (ranks: seq<Card>)
    requires counts == Tally(cards)
    ensures Distinct(ranks) && (set x | x in ranks) == RanksWithCount(multiset(cards), k)
  {
    TallyFacts(cards);
    var keys := TallyKeys(cards);
    ranks := [];
    for i := 0 to |keys|
      invariant Distinct(ranks)
      invariant forall x :: x in ranks <==> x in keys[..i] && counts[x] == k
    {
      assert keys[..i + 1] == keys[..i] + [keys[i]];
      assert keys[i] !in keys[..i];
      if counts[keys[i]] == k {
        ranks := ranks + [keys[i]];
      }
    }
    assert keys[..|keys|] == keys;
    forall x ensures x in ranks <==> x in RanksWithCount(multiset(cards), k) {
      assert x in keys <==> x in multiset(cards);
    }
  }

  /** The triplet_rank loop (beat_the_landlord.py:446-448): each rank held
      exactly k times overwrites the one found before, so the last such rank in
      dictionary order, if any. */
  method LastKeyWithCount(cards: seq<Card>, counts: map<Card, nat>, k: nat) returns (found: Option<Card>)
    requires counts == Tally(cards)
    ensures found.Some? <==> RanksWithCount(multiset(cards), k) != {}
    ensures found.Some? ==> found.value in RanksWithCount(multiset(cards), k)
  {
    TallyFacts(cards);
    var keys := TallyKeys(cards);
    found := None;
    for i := 0 to |keys|
      invariant found.None? <==> forall j | 0 <= j < i :: counts[keys[j]] != k
      invariant found.Some? ==> found.value in keys && counts[found.value] == k
    {
      if counts[keys[i]] == k {
        found := Some(keys[i]);
      }
    }
    if found.Some? {
      assert found.value in multiset(cards);
      assert found.value in RanksWithCount(multiset(cards), k);
    } else {
      forall x | x in keys ensures counts[x] != k {
        var j :| 0 <= j < |keys| && keys[j] == x;
      }
      forall x ensures x !in RanksWithCount(multiset(cards), k) {
        assert x in multiset(cards) <==> x in keys;
      }
    }
  }
}
