/** The rank domain. RANK_ORDER is 3 4 5 6 7 8 9 10 J Q K A 2 B R. A card is
    written as its index in RANK_ORDER ("3" is 0, "A" is 11, "2" is 12, the
    black joker "B" is 13, the red joker "R" is 14); any integer outside 0..14
    stands for a symbol that is not in RANK_ORDER. Suits are not modelled. */
module Ranks {
  import opened Results

  type Card = int

  const NUM_RANKS: nat := 15       // the length of RANK_ORDER
  const TWO: Card := 12            // "2"
  const BLACK_JOKER: Card := 13    // "B"
  const RED_JOKER: Card := 14      // "R"
  /** Sequences draw their ranks from the first twelve of RANK_ORDER, everything below "2". */
  const STRAIGHT_END: nat := 12

  /** The card is one of the fifteen ranks of RANK_ORDER. */
  predicate ValidCard(c: Card) {
    0 <= c < NUM_RANKS
  }

  predicate AllValid(cards: seq<Card>) {
    forall i | 0 <= i < |cards| :: ValidCard(cards[i])
  }

  /** get_rank: the index of a card in RANK_ORDER, or ValueError. */
  function GetRank(card: Card): (r: Result<nat>)
    ensures r.Ok? <==> ValidCard(card)
    ensures r.Ok? ==> r.value < NUM_RANKS
  {
    if ValidCard(card) then Ok(card) else Err(InvalidCard)
  }

  predicate Sorted(s: seq<Card>) {
    forall i, j | 0 <= i < j < |s| :: s[i] <= s[j]
  }

  predicate Increasing(s: seq<Card>) {
    forall i, j | 0 <= i < j < |s| :: s[i] < s[j]
  }

  /** Each rank is one above the rank before it: the adjacency test of the sequence shapes. */
  predicate Consecutive(s: seq<Card>) {
    forall i | 0 <= i < |s| - 1 :: s[i + 1] == s[i] + 1
  }

  /** The n consecutive ranks starting at lo. */
  function Window(lo: int, n: nat): seq<Card> {
    seq(n, i => lo + i)
  }

  /** The ranks of Window(lo, n) as a set. */
  function RunSet(lo: int, n: nat): set<Card> {
    set x | x in Window(lo, n)
  }

  /** S is an unbroken run of ranks (the empty set included). */
  predicate IsInterval(S: set<Card>) {
    exists lo | 0 <= lo <= NUM_RANKS :: S == RunSet(lo, |S|)
  }

  /** k copies of the card r. */
  function Copies(r: Card, k: nat): seq<Card> {
    seq(k, _ => r)
  }

  /** Each rank of `ranks` written k times, in order: how the generator turns a
      window or an attachment into cards. */
  function Expand(ranks: seq<Card>, k: nat): seq<Card> {
    if ranks == [] then [] else Expand(ranks[..|ranks| - 1], k) + Copies(ranks[|ranks| - 1], k)
  }

  /** The ranks of S below n, in RANK_ORDER. */
  function RanksBelow(S: set<Card>, n: nat): (r: seq<Card>)
    ensures Increasing(r)
    ensures forall x :: x in r <==> x in S && 0 <= x < n
  {
    if n == 0 then []
    else
      var prefix := RanksBelow(S, n - 1);
      assert forall i | 0 <= i < |prefix| :: prefix[i] < n - 1 by {
        forall i | 0 <= i < |prefix| ensures prefix[i] < n - 1 {
          assert prefix[i] in prefix;
        }
      }
      prefix + (if n - 1 in S then [n - 1] else [])
  }

  /** The ranks of S in RANK_ORDER: what sorted_cards returns for a list of the distinct ranks of S. */
  function RankList(S: set<Card>): (r: seq<Card>)
    ensures Increasing(r)
    ensures forall x :: x in r <==> x in S && ValidCard(x)
  {
    RanksBelow(S, NUM_RANKS)
  }

  /** The lowest valid rank of S: the head of its RANK_ORDER listing. */
  function Lowest(S: set<Card>): (r: Card)
    requires RankList(S) != []
    ensures r in S && ValidCard(r)
    ensures forall x | x in S && ValidCard(x) :: r <= x
  {
    var ks := RankList(S);
    assert ks[0] in ks;
    assert forall x | x in S && ValidCard(x) :: x in ks;
    assert forall j | 0 <= j < |ks| :: ks[0] <= ks[j];
    ks[0]
  }

  lemma LowestDefined(S: set<Card>, x: Card)
    requires x in S && ValidCard(x)
    ensures RankList(S) != []
  {
    assert x in RankList(S);
  }

  /** A valid member of S no greater than any other valid member is Lowest(S). */
  lemma LowestUnique(S: set<Card>, x: Card)
    requires x in S && ValidCard(x)
    requires forall y | y in S && ValidCard(y) :: x <= y
    ensures RankList(S) != [] && Lowest(S) == x
  {
    LowestDefined(S, x);
  }

  // The rank -> count signature of a group of cards, read off its multiset.

  function RankSet(m: multiset<Card>): set<Card> {
    set x | x in m
  }

  function RanksWithCount(m: multiset<Card>, k: nat): set<Card> {
    set x | x in m && m[x] == k
  }

  function RanksAtLeast(m: multiset<Card>, k: nat): set<Card> {
    set x | x in m && m[x] >= k
  }

  predicate HasCount(m: multiset<Card>, k: nat) {
    RanksWithCount(m, k) != {}
  }

  predicate AllCount(m: multiset<Card>, k: nat) {
    forall x | x in m :: m[x] == k
  }

  predicate CountsIn(m: multiset<Card>, a: nat, b: nat) {
    forall x | x in m :: m[x] == a || m[x] == b
  }

  // Lemmas about the rank domain.

  /** A set with a positive size has a member. */
  lemma SetWitness(S: set<Card>)
    ensures |S| > 0 ==> exists x :: x in S
  {
    if forall x :: x !in S {
      assert forall x :: x in S <==> x in {};
      assert S == {};
    }
  }

  lemma ValidMembers(cards: seq<Card>)
    requires AllValid(cards)
    ensures forall x | x in cards :: ValidCard(x)
  {
    forall x | x in cards ensures ValidCard(x) {
      var j :| 0 <= j < |cards| && cards[j] == x;
    }
  }

  /** Validity depends only on which cards are present. */
  lemma AllValidPermutation(a: seq<Card>, b: seq<Card>)
    requires multiset(a) == multiset(b)
    ensures AllValid(a) <==> AllValid(b)
  {
    if AllValid(a) {
      forall i | 0 <= i < |b| ensures ValidCard(b[i]) {
        assert b[i] in multiset(a);
        var j :| 0 <= j < |a| && a[j] == b[i];
      }
    }
    if AllValid(b) {
      forall i | 0 <= i < |a| ensures ValidCard(a[i]) {
        assert a[i] in multiset(b);
        var j :| 0 <= j < |b| && b[j] == a[i];
      }
    }
  }

  lemma WindowMembers(lo: int, n: nat)
    ensures forall x :: x in Window(lo, n) <==> lo <= x < lo + n
  {
    forall x | lo <= x < lo + n ensures x in Window(lo, n) {
      assert Window(lo, n)[x - lo] == x;
    }
  }

  lemma RunSetSize(lo: int, n: nat)
    ensures |RunSet(lo, n)| == n
  {
    assert Increasing(Window(lo, n));
    IncreasingCard(Window(lo, n));
  }

  /** Appending copies of a rank above everything already listed keeps a list sorted. */
  lemma SortedSnoc(front: seq<Card>, tail: seq<Card>, last: Card)
    requires Sorted(front) && (forall y | y in front :: y < last) && (forall y | y in tail :: y == last)
    ensures Sorted(front + tail)
  {
    var s := front + tail;
    forall i, j | 0 <= i < j < |s| ensures s[i] <= s[j] {
      if j >= |front| {
        assert s[j] == tail[j - |front|] && tail[j - |front|] in tail;
        if i < |front| {
          assert front[i] in front;
        } else {
          assert tail[i - |front|] in tail;
        }
      }
    }
  }

  /** Every card of a Copies list is its rank. */
  lemma CopiesMembers(r: Card, k: nat)
    ensures forall y | y in Copies(r, k) :: y == r
  {
  }

  lemma CopiesCount(r: Card, k: nat, x: Card)
    ensures multiset(Copies(r, k))[x] == if x == r then k else 0
  {
    if k > 0 {
      assert Copies(r, k) == Copies(r, k - 1) + [r];
      CopiesCount(r, k - 1, x);
    }
  }

  lemma {:induction false} ExpandCount(ranks: seq<Card>, k: nat, x: Card)
    requires Increasing(ranks)
    ensures multiset(Expand(ranks, k))[x] == if x in ranks then k else 0
  {
    if ranks != [] {
      var p, last := ranks[..|ranks| - 1], ranks[|ranks| - 1];
      assert ranks == p + [last];
      ExpandCount(p, k, x);
      CopiesCount(last, k, x);
      assert last !in p;
    }
  }

  lemma SortedMin(s: seq<Card>, x: Card)
    requires Sorted(s) && x in s
    ensures s != [] && s[0] <= x
  {
    var j :| 0 <= j < |s| && s[j] == x;
  }

  /** A sorted sequence is determined by its multiset. */
  lemma {:induction false} SortedUnique(a: seq<Card>, b: seq<Card>)
    requires Sorted(a) && Sorted(b) && multiset(a) == multiset(b)
    ensures a == b
    decreases |a|
  {
    if a == [] {
      assert |multiset(b)| == 0;
    } else {
      assert a[0] in multiset(b);
      SortedMin(b, a[0]);
      assert b[0] in multiset(a);
      SortedMin(a, b[0]);
      var a', b' := a[1..], b[1..];
      assert a == [a[0]] + a';
      assert b == [b[0]] + b';
      assert a[0] == b[0];
      assert multiset(a') == multiset(b') by {
        assert multiset(a) == multiset{a[0]} + multiset(a');
        assert multiset(b) == multiset{b[0]} + multiset(b');
        forall x ensures multiset(a')[x] == multiset(b')[x] {
          assert multiset(a)[x] == multiset(b)[x];
        }
      }
      assert Sorted(a') by {
        forall i, j | 0 <= i < j < |a'| ensures a'[i] <= a'[j] {
          assert a'[i] == a[i + 1] && a'[j] == a[j + 1];
        }
      }
      assert Sorted(b') by {
        forall i, j | 0 <= i < j < |b'| ensures b'[i] <= b'[j] {
          assert b'[i] == b[i + 1] && b'[j] == b[j + 1];
        }
      }
      SortedUnique(a', b');
    }
  }

  lemma {:induction false} IncreasingCount(a: seq<Card>, x: Card)
    requires Increasing(a)
    ensures multiset(a)[x] == if x in a then 1 else 0
  {
    if a != [] {
      var p, last := a[..|a| - 1], a[|a| - 1];
      assert a == p + [last];
      IncreasingCount(p, x);
      assert last !in p;
    }
  }

  lemma {:induction false} IncreasingCard(a: seq<Card>)
    requires Increasing(a)
    ensures |set x | x in a| == |a|
  {
    if a != [] {
      var p, last := a[..|a| - 1], a[|a| - 1];
      assert a == p + [last];
      IncreasingCard(p);
      assert (set x | x in a) == (set x | x in p) + {last};
      assert last !in p;
    }
  }

  /** Two increasing sequences with the same members are equal. */
  lemma IncreasingUnique(a: seq<Card>, b: seq<Card>)
    requires Increasing(a) && Increasing(b)
    requires forall x :: x in a <==> x in b
    ensures a == b
  {
    forall x ensures multiset(a)[x] == multiset(b)[x] {
      IncreasingCount(a, x);
      IncreasingCount(b, x);
    }
    assert multiset(a) == multiset(b);
    SortedUnique(a, b);
  }

  lemma {:induction false} ConsecutiveAt(s: seq<Card>, i: nat)
    requires Consecutive(s) && i < |s|
    ensures s[i] == s[0] + i
  {
    if i > 0 {
      ConsecutiveAt(s, i - 1);
    }
  }

  /** For an increasing list of valid ranks with members S, the adjacency test
      of the source holds exactly when S is an unbroken run. */
  lemma IncreasingConsecutiveIff(ks: seq<Card>, S: set<Card>)
    requires Increasing(ks) && AllValid(ks)
    requires forall x :: x in ks <==> x in S
    ensures Consecutive(ks) <==> IsInterval(S)
  {
    assert S == (set x | x in ks) by {
      forall x ensures x in S <==> x in (set y | y in ks) {
      }
    }
    IncreasingCard(ks);
    if Consecutive(ks) {
      if ks == [] {
        assert S == RunSet(0, |S|);
      } else {
        forall i | 0 <= i < |ks| ensures ks[i] == ks[0] + i {
          ConsecutiveAt(ks, i);
        }
        assert ks == Window(ks[0], |ks|);
        assert S == RunSet(ks[0], |S|);
      }
    }
    if IsInterval(S) {
      var lo :| 0 <= lo <= NUM_RANKS && S == RunSet(lo, |S|);
      IncreasingUnique(ks, Window(lo, |S|));
    }
  }

  lemma RepeatedCount(s: seq<Card>, i: nat, j: nat)
    requires i < j < |s|
    ensures s[i] == s[j] ==> multiset(s)[s[j]] >= 2
  {
    assert s == s[..j] + s[j..];
    assert s[i] in s[..j];
    assert s[j] in s[j..];
  }

  /** A sorted list with no repeated card is increasing. */
  lemma SortedDistinct(s: seq<Card>)
    requires Sorted(s) && AllCount(multiset(s), 1)
    ensures Increasing(s)
  {
    forall i, j | 0 <= i < j < |s| ensures s[i] != s[j] {
      RepeatedCount(s, i, j);
    }
  }

  /** For a sorted group of valid cards, the adjacency test holds exactly when
      the group holds each rank of an unbroken run once. */
  lemma SortedConsecutiveIff(s: seq<Card>)
    requires Sorted(s) && AllValid(s)
    ensures Consecutive(s) <==> AllCount(multiset(s), 1) && IsInterval(RankSet(multiset(s)))
  {
    if Consecutive(s) {
      if s != [] {
        forall i | 0 <= i < |s| ensures s[i] == s[0] + i {
          ConsecutiveAt(s, i);
        }
      }
      assert Increasing(s);
      forall x | x in multiset(s) ensures multiset(s)[x] == 1 {
        IncreasingCount(s, x);
      }
      IncreasingConsecutiveIff(s, RankSet(multiset(s)));
    }
    if AllCount(multiset(s), 1) && IsInterval(RankSet(multiset(s))) {
      SortedDistinct(s);
      IncreasingConsecutiveIff(s, RankSet(multiset(s)));
    }
  }
}
