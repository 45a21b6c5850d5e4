/** What get_combos promises about the combos it lists: each one is drawn from
    the hand, and get_combo_type gives it back the requested type. */
module GenerationFacts {
  import opened Ranks
  import opened Shapes
  import opened Choices
  import opened Generation

  // Building blocks: a combo made of k-copies of some ranks and j-copies of others.

  lemma {:induction false} ExpandLength(ranks: seq<Card>, k: nat)
    ensures |Expand(ranks, k)| == k * |ranks|
  {
    if ranks != [] {
      var p := ranks[..|ranks| - 1];
      ExpandLength(p, k);
      assert |Expand(ranks, k)| == |Expand(p, k)| + k;
      MulSucc(k, |p|);
    }
  }

  lemma MulSucc(k: nat, n: nat)
    ensures k * (n + 1) == k * n + k
  {
  }

  /** The rank counts of Expand(base, a) + Expand(att, b) for two disjoint
      increasing lists of ranks: the base ranks a times, the others b times. */
  lemma CompositeCounts(base: seq<Card>, a: nat, att: seq<Card>, b: nat)
    requires Increasing(base) && Increasing(att) && a > 0 && b > 0
    requires forall x | x in base :: x !in att
    ensures var c := Expand(base, a) + Expand(att, b);
      && (forall x :: multiset(c)[x] == if x in base then a else if x in att then b else 0)
      && (forall x :: x in c <==> x in base || x in att)
      && |c| == a * |base| + b * |att|
  {
    var c := Expand(base, a) + Expand(att, b);
    forall x ensures multiset(c)[x] == if x in base then a else if x in att then b else 0 {
      ExpandCount(base, a, x);
      ExpandCount(att, b, x);
    }
    forall x ensures x in c <==> x in base || x in att {
      assert x in c <==> x in multiset(c);
    }
    ExpandLength(base, a);
    ExpandLength(att, b);
  }

  /** The ranks held exactly k times, when those are the ranks of xs. */
  lemma CountClass(mc: multiset<Card>, k: nat, xs: seq<Card>)
    requires k > 0 && forall x :: mc[x] == k <==> x in xs
    ensures RanksWithCount(mc, k) == (set x | x in xs)
    ensures Increasing(xs) ==> |RanksWithCount(mc, k)| == |xs|
  {
    forall x ensures x in RanksWithCount(mc, k) <==> x in xs {
      assert x in mc <==> mc[x] > 0;
    }
    assert RanksWithCount(mc, k) == (set x | x in xs);
    if Increasing(xs) {
      IncreasingCard(xs);
    }
  }

  /** The same combo seen through the sets the shape predicates use. */
  lemma Composite(base: seq<Card>, a: nat, att: seq<Card>, b: nat)
    requires Increasing(base) && Increasing(att) && a > 0 && b > 0 && a != b
    requires forall x | x in base :: x !in att
    ensures var mc := multiset(Expand(base, a) + Expand(att, b));
      && CountsIn(mc, a, b)
      && RanksWithCount(mc, a) == (set x | x in base)
      && RanksWithCount(mc, b) == (set x | x in att)
      && |RanksWithCount(mc, a)| == |base|
      && |RanksWithCount(mc, b)| == |att|
  {
    CompositeCounts(base, a, att, b);
    var mc := multiset(Expand(base, a) + Expand(att, b));
    assert forall x :: mc[x] == a <==> x in base;
    assert forall x :: mc[x] == b <==> x in att;
    CountClass(mc, a, base);
    CountClass(mc, b, att);
  }

  /** Expand(w, k) over an increasing w: every rank of w k times, nothing else. */
  lemma Plain(w: seq<Card>, k: nat)
    requires Increasing(w) && k > 0
    ensures var c := Expand(w, k);
      var mc := multiset(c);
      && (forall x :: mc[x] == if x in w then k else 0)
      && (forall x :: x in c <==> x in w)
      && |c| == k * |w|
      && AllCount(mc, k)
      && RankSet(mc) == (set x | x in w)
      && |RankSet(mc)| == |w|
  {
    var c := Expand(w, k);
    var mc := multiset(c);
    forall x ensures mc[x] == if x in w then k else 0 {
      ExpandCount(w, k, x);
    }
    forall x ensures x in c <==> x in w {
      assert x in c <==> x in mc;
    }
    ExpandLength(w, k);
    assert RankSet(mc) == (set x | x in w);
    IncreasingCard(w);
  }

  lemma SingleExpand(r: Card, k: nat)
    ensures Expand([r], k) == Copies(r, k)
  {
    assert [r][..0] == [];
  }

  lemma {:induction false} WindowsOfLengthMember(S: set<Card>, len: nat, starts: nat, w: seq<Card>)
    requires len > 0 && starts + len <= STRAIGHT_END + 1 && w in WindowsOfLength(S, len, starts)
    ensures IsWindow(w, len) && w[0] < starts && RunSet(w[0], len) <= S
  {
    var prefix := WindowsOfLength(S, len, starts - 1);
    if w in prefix {
      WindowsOfLengthMember(S, len, starts - 1, w);
    } else {
      assert w == Window(starts - 1, len);
    }
  }

  lemma {:induction false} WindowsUpToMember(S: set<Card>, minLen: nat, maxLen: nat, w: seq<Card>)
    requires minLen > 0 && maxLen <= STRAIGHT_END && w in WindowsUpTo(S, minLen, maxLen)
    ensures minLen <= |w| <= maxLen && IsWindow(w, |w|) && RunSet(w[0], |w|) <= S
  {
    var shorter := WindowsUpTo(S, minLen, maxLen - 1);
    if w in shorter {
      WindowsUpToMember(S, minLen, maxLen - 1, w);
    } else {
      WindowsOfLengthMember(S, maxLen, STRAIGHT_END + 1 - maxLen, w);
    }
  }

  /** Every window listed for S is a run of at least minLen ranks below "2",
      all of them in S. */
  lemma WindowsMember(S: set<Card>, minLen: nat, w: seq<Card>)
    requires minLen > 0 && w in Windows(S, minLen)
    ensures minLen <= |w| <= STRAIGHT_END && IsWindow(w, |w|) && RunSet(w[0], |w|) <= S
  {
    WindowsUpToMember(S, minLen, STRAIGHT_END, w);
  }

  /** A window of the generator: an increasing run of valid ranks below "2"
      whose set is an interval. */
  lemma WindowFacts(w: seq<Card>)
    requires IsWindow(w, |w|)
    ensures Increasing(w) && AllValid(w)
    ensures forall x :: x in w <==> w[0] <= x < w[0] + |w|
    ensures (set x | x in w) == RunSet(w[0], |w|)
    ensures TWO !in w && BLACK_JOKER !in w && RED_JOKER !in w
    ensures IsInterval(set x | x in w)
  {
    WindowMembers(w[0], |w|);
    RunSetSize(w[0], |w|);
    IncreasingCard(w);
    assert |set x | x in w| == |w|;
  }

  /** A run window listed for the multiset m and count threshold n: each rank
      of it is held at least n times. */
  lemma WindowHeld(w: seq<Card>, m: multiset<Card>, n: nat)
    requires IsWindow(w, |w|) && RunSet(w[0], |w|) <= RanksAtLeast(m, n)
    ensures forall x | x in w :: m[x] >= n
  {
    WindowFacts(w);
    forall x | x in w ensures m[x] >= n {
      assert x in RunSet(w[0], |w|);
    }
  }

  // Membership in the composite lists.

  lemma {:induction false} TripletAttachMember(ts: seq<Card>, ss: seq<Card>, k: nat, c: seq<Card>)
    returns (t: Card, s: Card)
    requires c in TripletAttach(ts, ss, k)
    ensures t in ts && s in ss && s != t && c == Copies(t, 3) + Copies(s, k)
  {
    var p, last := ts[..|ts| - 1], ts[|ts| - 1];
    if c in TripletAttach(p, ss, k) {
      t, s := TripletAttachMember(p, ss, k, c);
      assert t in ts by {
        var i :| 0 <= i < |p| && p[i] == t;
        assert ts[i] == t;
      }
    } else {
      assert c in Pairings(last, ss, k);
      t := last;
      s :| s in ss && s != t && c == Copies(t, 3) + Copies(s, k);
    }
  }

  lemma {:induction false} AttachedMember(base: seq<Card>, bc: nat, atts: seq<seq<Card>>, k: nat,
                                          jr: bool, c: seq<Card>)
    returns (att: seq<Card>)
    requires c in Attached(base, bc, atts, k, jr)
    ensures att in atts && c == Expand(base, bc) + Expand(att, k) && !(jr && BothJokers(c))
  {
    var p := atts[..|atts| - 1];
    if c in Attached(base, bc, p, k, jr) {
      att := AttachedMember(base, bc, p, k, jr, c);
      assert att in atts by {
        var i :| 0 <= i < |p| && p[i] == att;
        assert atts[i] == att;
      }
    } else {
      att := atts[|atts| - 1];
    }
  }

  lemma {:induction false} RunsMember(ws: seq<seq<Card>>, pool: seq<Card>, k: nat, jr: bool, c: seq<Card>)
    returns (w: seq<Card>, att: seq<Card>)
    requires c in RunsWithAttachments(ws, pool, k, jr)
    ensures w in ws && att in Combinations(Without(pool, w), |w|)
    ensures c == Expand(w, 3) + Expand(att, k) && !(jr && BothJokers(c))
  {
    var p := ws[..|ws| - 1];
    if c in RunsWithAttachments(p, pool, k, jr) {
      w, att := RunsMember(p, pool, k, jr, c);
      assert w in ws by {
        var i :| 0 <= i < |p| && p[i] == w;
        assert ws[i] == w;
      }
    } else {
      w := ws[|ws| - 1];
      att := AttachedMember(w, 3, Combinations(Without(pool, w), |w|), k, jr, c);
    }
  }

  lemma {:induction false} QuadsMember(qs: seq<Card>, pool: seq<Card>, k: nat, jr: bool, c: seq<Card>)
    returns (q: Card, att: seq<Card>)
    requires c in QuadsWithAttachments(qs, pool, k, jr)
    ensures q in qs && att in Combinations(Without(pool, [q]), 2)
    ensures c == Expand([q], 4) + Expand(att, k) && !(jr && BothJokers(c))
  {
    var p, last := qs[..|qs| - 1], qs[|qs| - 1];
    assert qs == p + [last];
    var valid := Without(pool, [last]);
    var tail := if |valid| >= 2 then Attached([last], 4, Combinations(valid, 2), k, jr) else [];
    assert QuadsWithAttachments(qs, pool, k, jr) == QuadsWithAttachments(p, pool, k, jr) + tail;
    if c in QuadsWithAttachments(p, pool, k, jr) {
      q, att := QuadsMember(p, pool, k, jr, c);
    } else {
      assert c in tail;
      q := last;
      att := AttachedMember([last], 4, Combinations(valid, 2), k, jr, c);
    }
  }


  lemma {:induction false} ExpandOne(w: seq<Card>)
    ensures Expand(w, 1) == w
  {
    if w != [] {
      ExpandOne(w[..|w| - 1]);
      assert w == w[..|w| - 1] + [w[|w| - 1]];
    }
  }

  /** Facts about the hand's rank listing and the attachment pools built from it. */
  lemma PoolFacts(m: multiset<Card>, n: nat)
    ensures var pool := Filter(RankList(RankSet(m)), m, n);
      && Increasing(pool)
      && forall x | x in pool :: ValidCard(x) && x in m && m[x] >= n
  {
    var pool := Filter(RankList(RankSet(m)), m, n);
    forall x | x in pool ensures ValidCard(x) && x in m && m[x] >= n {
      assert x in RankSet(m);
    }
  }

  lemma ValidFromMembers(c: seq<Card>)
    requires forall x | x in c :: ValidCard(x)
    ensures AllValid(c)
  {
    forall i | 0 <= i < |c| ensures ValidCard(c[i]) {
      assert c[i] in c;
    }
  }

  // One lemma per family of combo types: the combo is drawn from the hand and
  // has the requested shape.

  /** single, pair, triplet and bomb: n copies of one rank held n times or more. */
  lemma SameRankSound(m: multiset<Card>, n: nat, c: seq<Card>)
    requires 0 < n && c in SameRank(RankList(RankSet(m)), m, n)
    ensures multiset(c) <= m && |c| == n && AllValid(c) && AllCount(multiset(c), n)
  {
    var r := c[0];
    assert r in RankList(RankSet(m));
    assert c == Copies(r, n);
    forall x ensures multiset(c)[x] == if x == r then n else 0 {
      CopiesCount(r, n, x);
    }
    ValidFromMembers(c);
  }

  /** The plain sequences: every rank of a window, n times. */
  lemma PlainRunSound(m: multiset<Card>, S: set<Card>, n: nat, minLen: nat, w: seq<Card>)
    requires n > 0 && minLen > 0 && w in Windows(S, minLen)
    requires forall x | x in S :: m[x] >= n
    ensures var c := Expand(w, n);
      && multiset(c) <= m && AllValid(c) && NoTwosOrJokers(c) && AllCount(multiset(c), n)
      && |c| == n * |w| && |w| >= minLen
      && |RankSet(multiset(c))| == |w| && IsInterval(RankSet(multiset(c)))
  {
    WindowsMember(S, minLen, w);
    WindowFacts(w);
    Plain(w, n);
    var c := Expand(w, n);
    forall x | x in w ensures m[x] >= n {
      assert x in RunSet(w[0], |w|);
    }
    ValidFromMembers(c);
  }

  lemma SequenceOfSinglesSound(hand: seq<Card>, c: seq<Card>)
    requires c in Generate(hand, SequenceOfSingles)
    ensures multiset(c) <= multiset(hand) && SequenceOfSinglesShape(c)
  {
    var m := multiset(hand);
    PlainRunSound(m, RankSet(m), 1, 5, c);
    ExpandOne(c);
  }

  /** A combo of base ranks a times each and attachment ranks b times each,
      every rank held often enough: drawn from the hand, and its signature. */
  lemma AttachmentCombo(m: multiset<Card>, base: seq<Card>, a: nat, att: seq<Card>, b: nat)
    requires Increasing(base) && Increasing(att) && a > 0 && b > 0 && a != b
    requires forall x | x in base :: x !in att
    requires forall x | x in base :: ValidCard(x) && m[x] >= a
    requires forall x | x in att :: ValidCard(x) && m[x] >= b
    ensures var c := Expand(base, a) + Expand(att, b);
      var mc := multiset(c);
      && mc <= m && AllValid(c) && |c| == a * |base| + b * |att|
      && (forall x :: x in c <==> x in base || x in att)
      && CountsIn(mc, a, b)
      && RanksWithCount(mc, a) == (set x | x in base)
      && RanksWithCount(mc, b) == (set x | x in att)
      && |RanksWithCount(mc, a)| == |base|
      && |RanksWithCount(mc, b)| == |att|
  {
    var c := Expand(base, a) + Expand(att, b);
    CompositeCounts(base, a, att, b);
    Composite(base, a, att, b);
    forall x ensures multiset(c)[x] <= m[x] {
    }
    ValidFromMembers(c);
  }

  /** triplet with a single or a pair: t three times and another rank s k times. */
  lemma TripletAttachSound(m: multiset<Card>, k: nat, c: seq<Card>)
    requires k == 1 || k == 2
    requires c in TripletAttach(Filter(RankList(RankSet(m)), m, 3), Filter(RankList(RankSet(m)), m, k), k)
    ensures var mc := multiset(c);
      && mc <= m && |c| == 3 + k && AllValid(c) && CountsIn(mc, 3, k)
      && |RanksWithCount(mc, 3)| == 1 && |RanksWithCount(mc, k)| == 1
  {
    var ranks := RankList(RankSet(m));
    var t, s := TripletAttachMember(Filter(ranks, m, 3), Filter(ranks, m, k), k, c);
    PoolFacts(m, 3);
    PoolFacts(m, k);
    SingleExpand(t, 3);
    SingleExpand(s, k);
    AttachmentCombo(m, [t], 3, [s], k);
  }

  /** Every combo in a sequence-of-triplets-with-attachments list: the window's
      ranks three times each, and |window| other ranks k times each. */
  lemma RunsSound(m: multiset<Card>, k: nat, jr: bool, c: seq<Card>)
    requires k == 1 || k == 2
    requires c in RunsWithAttachments(Windows(RanksAtLeast(m, 3), 2), Filter(RankList(RankSet(m)), m, k), k, jr)
    ensures var mc := multiset(c);
      var triplets := RanksWithCount(mc, 3);
      && mc <= m && AllValid(c) && CountsIn(mc, 3, k)
      && |triplets| == |RanksWithCount(mc, k)| && TWO !in triplets
      && (jr ==> !(BLACK_JOKER in RanksWithCount(mc, k) && RED_JOKER in RanksWithCount(mc, k)))
      && |triplets| >= 2 && IsInterval(triplets)
  {
    var pool := Filter(RankList(RankSet(m)), m, k);
    var w, att := RunsMember(Windows(RanksAtLeast(m, 3), 2), pool, k, jr, c);
    WindowsMember(RanksAtLeast(m, 3), 2, w);
    PoolFacts(m, k);
    WindowFacts(w);
    CombinationsIncreasing(Without(pool, w), |w|);
    CombinationsMembers(Without(pool, w), |w|, att);
    forall x | x in w ensures m[x] >= 3 {
      assert x in RunSet(w[0], |w|);
    }
    AttachmentCombo(m, w, 3, att, k);
  }

  /** Every combo in a quad-with-attachments list: q four times and two other
      ranks k times each. */
  lemma QuadsSound(m: multiset<Card>, k: nat, jr: bool, c: seq<Card>)
    requires k == 1 || k == 2
    requires c in QuadsWithAttachments(Filter(RankList(RankSet(m)), m, 4), Filter(RankList(RankSet(m)), m, k), k, jr)
    ensures var mc := multiset(c);
      && mc <= m && |c| == 4 + 2 * k && AllValid(c) && (jr ==> !BothJokers(c)) && CountsIn(mc, 4, k)
      && |RanksWithCount(mc, 4)| == 1 && |RanksWithCount(mc, k)| == 2
  {
    var ranks := RankList(RankSet(m));
    var pool := Filter(ranks, m, k);
    var q, att := QuadsMember(Filter(ranks, m, 4), pool, k, jr, c);
    PoolFacts(m, 4);
    PoolFacts(m, k);
    CombinationsIncreasing(Without(pool, [q]), 2);
    CombinationsMembers(Without(pool, [q]), 2, att);
    assert Increasing([q]);
    AttachmentCombo(m, [q], 4, att, k);
  }

  lemma ExpandAllMember(ws: seq<seq<Card>>, k: nat, c: seq<Card>) returns (w: seq<Card>)
    requires c in ExpandAll(ws, k)
    ensures w in ws && c == Expand(w, k)
  {
    var i :| 0 <= i < |ws| && ExpandAll(ws, k)[i] == c;
    w := ws[i];
  }

  /** get_combos' promise: every combo it lists for a type is made of cards of
      the hand (as a multiset), and get_combo_type classifies it as that type.
      So attachments never reuse a base rank and the single-attachment types
      never carry both jokers, since the shapes rule both out. */
  lemma GenerateSound(hand: seq<Card>, kind: ComboKind, c: seq<Card>)
    requires c in Generate(hand, kind)
    ensures multiset(c) <= multiset(hand)
    ensures GetComboType(c) == kind
  {
    var m := multiset(hand);
    match kind {
      case Single => SameRankSound(m, 1, c);
      case Pair => SameRankSound(m, 2, c);
      case Triplet => SameRankSound(m, 3, c);
      case Bomb => SameRankSound(m, 4, c);
      case SequenceOfSingles => SequenceOfSinglesSound(hand, c);
      case SequenceOfPairs =>
        var w := ExpandAllMember(Windows(RanksAtLeast(m, 2), 3), 2, c);
        PlainRunSound(m, RanksAtLeast(m, 2), 2, 3, w);
      case SequenceOfTriplets =>
        var w := ExpandAllMember(Windows(RanksAtLeast(m, 3), 2), 3, c);
        PlainRunSound(m, RanksAtLeast(m, 3), 3, 2, w);
      case TripletWithSingle => TripletAttachSound(m, 1, c);
      case TripletWithPair => TripletAttachSound(m, 2, c);
      case SequenceOfTripletsWithSingles => RunsSound(m, 1, true, c);
      case SequenceOfTripletsWithPairs => RunsSound(m, 2, false, c);
      case QuadWithTwoSingles => QuadsSound(m, 1, true, c);
      case QuadWithTwoPairs => QuadsSound(m, 2, false, c);
      case Rocket =>
        assert c == [BLACK_JOKER, RED_JOKER];
        assert multiset(c) == multiset{BLACK_JOKER, RED_JOKER};
    }
    assert HasShape(c, kind);
    GetComboTypeIff(c, kind);
  }

  // The order of the lists.

  lemma {:induction false} SameRankAll(ranks: seq<Card>, m: multiset<Card>)
    requires forall x | x in ranks :: m[x] >= 1
    ensures |SameRank(ranks, m, 1)| == |ranks|
    ensures forall i | 0 <= i < |ranks| :: SameRank(ranks, m, 1)[i] == [ranks[i]]
  {
    if ranks != [] {
      var p, last := ranks[..|ranks| - 1], ranks[|ranks| - 1];
      assert ranks == p + [last];
      SameRankAll(p, m);
      assert Copies(last, 1) == [last];
      var r := SameRank(p, m, 1);
      assert SameRank(ranks, m, 1) == r + [[last]];
      forall i | 0 <= i < |ranks| ensures SameRank(ranks, m, 1)[i] == [ranks[i]] {
        if i < |p| {
          assert ranks[i] == p[i];
        }
      }
    }
  }

  /** The singles are the hand's distinct ranks, one each, lowest first. */
  lemma SinglesListing(hand: seq<Card>)
    ensures var ranks := RankList(RankSet(multiset(hand)));
      && |Generate(hand, Single)| == |ranks|
      && (forall i | 0 <= i < |ranks| :: Generate(hand, Single)[i] == [ranks[i]])
      && (forall i, j | 0 <= i < j < |ranks| :: Generate(hand, Single)[i][0] < Generate(hand, Single)[j][0])
  {
    var m := multiset(hand);
    var ranks := RankList(RankSet(m));
    forall x | x in ranks ensures m[x] >= 1 {
      assert x in RankSet(m);
    }
    SameRankAll(ranks, m);
  }

  /** A non-empty hand of valid cards has singles, and the first is its lowest card. */
  lemma LowestSingleFirst(hand: seq<Card>)
    requires hand != [] && AllValid(hand)
    ensures RankList(RankSet(multiset(hand))) != []
    ensures Generate(hand, Single) != []
    ensures Generate(hand, Single)[0] == [Lowest(RankSet(multiset(hand)))]
    ensures Lowest(RankSet(multiset(hand))) in hand
    ensures forall x | x in hand :: Lowest(RankSet(multiset(hand))) <= x
  {
    var m := multiset(hand);
    assert hand[0] in m;
    LowestDefined(RankSet(m), hand[0]);
    SinglesListing(hand);
    ValidMembers(hand);
    forall x | x in hand ensures Lowest(RankSet(m)) <= x {
      assert x in RankSet(m);
    }
    assert Lowest(RankSet(m)) in RankSet(m);
  }

  // Completeness of the same-rank types.

  lemma {:induction false} SameRankComplete(ranks: seq<Card>, m: multiset<Card>, n: nat, x: Card)
    requires n > 0 && x in ranks && m[x] >= n
    ensures Copies(x, n) in SameRank(ranks, m, n)
  {
    var p, last := ranks[..|ranks| - 1], ranks[|ranks| - 1];
    assert ranks == p + [last];
    if x != last {
      assert x in p;
      SameRankComplete(p, m, n, x);
    }
  }

  /** Every rank the hand holds n times is offered as a single, a pair, a
      triplet or a bomb; with GenerateSound, these lists are exactly the
      hand's same-rank groups. */
  lemma SameRankGenerated(hand: seq<Card>, x: Card)
    requires ValidCard(x)
    ensures multiset(hand)[x] >= 1 ==> [x] in Generate(hand, Single)
    ensures multiset(hand)[x] >= 2 ==> Copies(x, 2) in Generate(hand, Pair)
    ensures multiset(hand)[x] >= 3 ==> Copies(x, 3) in Generate(hand, Triplet)
    ensures multiset(hand)[x] >= 4 ==> Copies(x, 4) in Generate(hand, Bomb)
  {
    var m := multiset(hand);
    var ranks := RankList(RankSet(m));
    if m[x] >= 1 {
      assert x in RankSet(m);
      assert Copies(x, 1) == [x];
      SameRankComplete(ranks, m, 1, x);
      if m[x] >= 2 { SameRankComplete(ranks, m, 2, x); }
      if m[x] >= 3 { SameRankComplete(ranks, m, 3, x); }
      if m[x] >= 4 { SameRankComplete(ranks, m, 4, x); }
    }
  }
}
