/** get_combos as the source writes it: a frequency table of the hand, then
    one loop nest per combo type that appends the combos it finds to
    `combos`. Each loop is proved to build exactly the list that the
    Generation module specifies. */
module Generator {
  import opened Results
  import opened Ranks
  import opened Tallies
  import opened Shapes
  import opened Choices
  import opened Generation

  /** The frequency table's entry for a rank the hand holds. */
  lemma CountOf(hand: seq<Card>, counts: map<Card, nat>, r: Card)
    requires counts == Tally(hand) && r in RankList(RankSet(multiset(hand)))
    ensures r in counts && counts[r] == multiset(hand)[r]
  {
    TallyFacts(hand);
  }

  lemma SameRankStep(ranks: seq<Card>, i: nat, m: multiset<Card>, n: nat)
    requires i < |ranks| && n > 0
    ensures SameRank(ranks[..i + 1], m, n)
      == SameRank(ranks[..i], m, n) + (if m[ranks[i]] >= n then [Copies(ranks[i], n)] else [])
  {
    assert ranks[..i + 1][..i] == ranks[..i];
  }

  lemma FilterStep(ranks: seq<Card>, i: nat, m: multiset<Card>, n: nat)
    requires i < |ranks|
    ensures Filter(ranks[..i + 1], m, n) == Filter(ranks[..i], m, n) + (if m[ranks[i]] >= n then [ranks[i]] else [])
  {
    assert ranks[..i + 1][..i] == ranks[..i];
  }

  /** The "single" loop (beat_the_landlord.py:562-566): one single for each
      rank of the hand, in rank order. */
  method SingleCombos(hand: seq<Card>, ranks: seq<Card>) returns (combos: seq<seq<Card>>)
    requires ranks == RankList(RankSet(multiset(hand)))
    ensures combos == SameRank(ranks, multiset(hand), 1)
  {
    combos := [];
    var i := 0;
    while i < |ranks|
      invariant i <= |ranks|
      invariant combos == SameRank(ranks[..i], multiset(hand), 1)
    {
      SameRankStep(ranks, i, multiset(hand), 1);
      assert ranks[i] in ranks;
      assert multiset(hand)[ranks[i]] >= 1;
      assert [ranks[i]] == Copies(ranks[i], 1);
      combos := combos + [[ranks[i]]];
      i := i + 1;
    }
    assert ranks[..|ranks|] == ranks;
  }

  /** The "pair", "triplet" and "bomb" loops (beat_the_landlord.py:578-583 and
      its twins): n cards of each rank the hand holds at least n times, in
      rank order. */
  method SameRankCombos(hand: seq<Card>, counts: map<Card, nat>, ranks: seq<Card>, n: nat)
    returns (combos: seq<seq<Card>>)
    requires counts == Tally(hand) && ranks == RankList(RankSet(multiset(hand))) && n > 0
    ensures combos == SameRank(ranks, multiset(hand), n)
  {
    combos := [];
    var i := 0;
    while i < |ranks|
      invariant i <= |ranks|
      invariant combos == SameRank(ranks[..i], multiset(hand), n)
    {
      SameRankStep(ranks, i, multiset(hand), n);
      assert ranks[i] in ranks;
      CountOf(hand, counts, ranks[i]);
      if counts[ranks[i]] >= n {
        combos := combos + [Copies(ranks[i], n)];
      }
      i := i + 1;
    }
    assert ranks[..|ranks|] == ranks;
  }

  /** The ranks held at least k times, collected from the frequency table. */
  method RanksHeld(hand: seq<Card>, counts: map<Card, nat>, k: nat) returns (held: set<Card>)
    requires counts == Tally(hand)
    ensures held == RanksAtLeast(multiset(hand), k)
  {
    TallyFacts(hand);
    var keys := TallyKeys(hand);
    held := {};
    for i := 0 to |keys|
      invariant forall x :: x in held <==> x in keys[..i] && multiset(hand)[x] >= k
    {
      assert keys[i] in hand;
      assert keys[..i + 1] == keys[..i] + [keys[i]];
      if counts[keys[i]] >= k {
        held := held + {keys[i]};
      }
    }
    assert keys[..|keys|] == keys;
    forall x ensures x in held <==> x in RanksAtLeast(multiset(hand), k) {
    }
  }

  /** The ranks the hand holds at least k times, in rank order, as the
      attachment lists are gathered (beat_the_landlord.py:666-669). */
  method RanksHeldList(hand: seq<Card>, counts: map<Card, nat>, ranks: seq<Card>, k: nat)
    returns (held: seq<Card>)
    requires counts == Tally(hand) && ranks == RankList(RankSet(multiset(hand)))
    ensures held == Filter(ranks, multiset(hand), k)
  {
    held := [];
    var i := 0;
    while i < |ranks|
      invariant i <= |ranks|
      invariant held == Filter(ranks[..i], multiset(hand), k)
    {
      FilterStep(ranks, i, multiset(hand), k);
      assert ranks[i] in ranks;
      CountOf(hand, counts, ranks[i]);
      if counts[ranks[i]] >= k {
        held := held + [ranks[i]];
      }
      i := i + 1;
    }
    assert ranks[..|ranks|] == ranks;
  }

  /** The two rank lists built side by side in one pass over the sorted ranks:
      those held at least a times and those held at least b times. */
  method RanksHeldTwice(hand: seq<Card>, counts: map<Card, nat>, ranks: seq<Card>, a: nat, b: nat)
    returns (withA: seq<Card>, withB: seq<Card>)
    requires counts == Tally(hand) && ranks == RankList(RankSet(multiset(hand)))
    ensures withA == Filter(ranks, multiset(hand), a)
    ensures withB == Filter(ranks, multiset(hand), b)
  {
    withA, withB := [], [];
    var i := 0;
    while i < |ranks|
      invariant i <= |ranks|
      invariant withA == Filter(ranks[..i], multiset(hand), a)
      invariant withB == Filter(ranks[..i], multiset(hand), b)
    {
      FilterStep(ranks, i, multiset(hand), a);
      FilterStep(ranks, i, multiset(hand), b);
      assert ranks[i] in ranks;
      CountOf(hand, counts, ranks[i]);
      if counts[ranks[i]] >= a {
        withA := withA + [ranks[i]];
      }
      if counts[ranks[i]] >= b {
        withB := withB + [ranks[i]];
      }
      i := i + 1;
    }
    assert ranks[..|ranks|] == ranks;
  }

  /** The inner window loop (beat_the_landlord.py:571-576): for each start,
      keep the run of len ranks from there when all its ranks lie in S. */
  method WindowsOf(S: set<Card>, len: nat) returns (ws: seq<seq<Card>>)
    requires 0 < len <= STRAIGHT_END
    ensures ws == WindowsOfLength(S, len, STRAIGHT_END + 1 - len)
  {
    ws := [];
    for i := 0 to STRAIGHT_END + 1 - len
      invariant ws == WindowsOfLength(S, len, i)
    {
      if RunSet(i, len) <= S {
        var window := Window(i, len);
        ws := ws + [window];
      }
    }
  }

  /** The window loops: for each length from minLen to 12, shortest first,
      the windows of that length. */
  method FindWindows(S: set<Card>, minLen: nat) returns (ws: seq<seq<Card>>)
    requires 0 < minLen <= STRAIGHT_END
    ensures ws == Windows(S, minLen)
  {
    ws := [];
    for len := minLen to STRAIGHT_END + 1
      invariant ws == WindowsUpTo(S, minLen, len - 1)
    {
      var found := WindowsOf(S, len);
      ws := ws + found;
    }
  }

  /** found_combo built rank by rank, k cards each. */
  method ExpandRanks(ranks: seq<Card>, k: nat) returns (found: seq<Card>)
    ensures found == Expand(ranks, k)
  {
    found := [];
    for i := 0 to |ranks|
      invariant found == Expand(ranks[..i], k)
    {
      for j := 0 to k
        invariant found == Expand(ranks[..i], k) + Copies(ranks[i], j)
      {
        assert Copies(ranks[i], j + 1) == Copies(ranks[i], j) + [ranks[i]];
        found := found + [ranks[i]];
      }
      assert ranks[..i + 1][..i] == ranks[..i];
    }
    assert ranks[..|ranks|] == ranks;
  }

  lemma ExpandAllSnoc(ws: seq<seq<Card>>, w: seq<Card>, k: nat)
    ensures ExpandAll(ws + [w], k) == ExpandAll(ws, k) + [Expand(w, k)]
  {
    var l, r := ExpandAll(ws + [w], k), ExpandAll(ws, k) + [Expand(w, k)];
    assert |l| == |r|;
    forall i | 0 <= i < |l| ensures l[i] == r[i] {
      if i < |ws| {
        assert (ws + [w])[i] == ws[i];
      }
    }
  }

  lemma ExpandAllAppend(a: seq<seq<Card>>, b: seq<seq<Card>>, k: nat)
    ensures ExpandAll(a + b, k) == ExpandAll(a, k) + ExpandAll(b, k)
  {
    var l, r := ExpandAll(a + b, k), ExpandAll(a, k) + ExpandAll(b, k);
    assert |l| == |r|;
    forall i | 0 <= i < |l| ensures l[i] == r[i] {
      if i < |a| {
        assert (a + b)[i] == a[i];
      } else {
        assert (a + b)[i] == b[i - |a|];
      }
    }
  }

  /** One more start position of the inner window loop. */
  lemma StartStep(S: set<Card>, len: nat, i: nat, k: nat, combos: seq<seq<Card>>)
    requires 0 < len && i + 1 + len <= STRAIGHT_END + 1
    requires combos == ExpandAll(WindowsOfLength(S, len, i), k)
    ensures RunSet(i, len) <= S ==>
      combos + [Expand(Window(i, len), k)] == ExpandAll(WindowsOfLength(S, len, i + 1), k)
    ensures !(RunSet(i, len) <= S) ==> combos == ExpandAll(WindowsOfLength(S, len, i + 1), k)
  {
    var ws := WindowsOfLength(S, len, i);
    if RunSet(i, len) <= S {
      ExpandAllSnoc(ws, Window(i, len), k);
    } else {
      assert WindowsOfLength(S, len, i + 1) == ws + [];
      assert ws + [] == ws;
    }
  }

  /** One more length of the outer window loop. */
  lemma LengthStep(S: set<Card>, minLen: nat, len: nat, k: nat, combos: seq<seq<Card>>, found: seq<seq<Card>>)
    requires 0 < minLen <= len <= STRAIGHT_END
    requires combos == ExpandAll(WindowsUpTo(S, minLen, len - 1), k)
    requires found == ExpandAll(WindowsOfLength(S, len, STRAIGHT_END + 1 - len), k)
    ensures combos + found == ExpandAll(WindowsUpTo(S, minLen, len), k)
  {
    ExpandAllAppend(WindowsUpTo(S, minLen, len - 1), WindowsOfLength(S, len, STRAIGHT_END + 1 - len), k);
  }

  /** The sequence-of-pairs and sequence-of-triplets loops for one length:
      each window of S is written out with k cards per rank as soon as it is
      found. */
  method PlainSequencesOf(S: set<Card>, len: nat, k: nat) returns (combos: seq<seq<Card>>)
    requires 0 < len <= STRAIGHT_END
    ensures combos == ExpandAll(WindowsOfLength(S, len, STRAIGHT_END + 1 - len), k)
  {
    combos := [];
    var i := 0;
    while i < STRAIGHT_END + 1 - len
      invariant i <= STRAIGHT_END + 1 - len
      invariant combos == ExpandAll(WindowsOfLength(S, len, i), k)
    {
      StartStep(S, len, i, k, combos);
      if RunSet(i, len) <= S {
        var found := ExpandRanks(Window(i, len), k);
        combos := combos + [found];
      }
      i := i + 1;
    }
  }

  /** The sequence-of-pairs and sequence-of-triplets loops: every length from
      minLen to 12, shortest first. */
  method PlainSequences(S: set<Card>, minLen: nat, k: nat) returns (combos: seq<seq<Card>>)
    requires 0 < minLen <= STRAIGHT_END
    ensures combos == ExpandAll(Windows(S, minLen), k)
  {
    combos := [];
    var len := minLen;
    while len <= STRAIGHT_END
      invariant minLen <= len <= STRAIGHT_END + 1
      invariant combos == ExpandAll(WindowsUpTo(S, minLen, len - 1), k)
    {
      var found := PlainSequencesOf(S, len, k);
      LengthStep(S, minLen, len, k, combos, found);
      combos := combos + found;
      len := len + 1;
    }
  }

  /** The double loop of "triplet with single" and "triplet with pair"
      (beat_the_landlord.py:615-619): each triplet rank with each attachment
      rank other than itself, the attachment written k times. */
  method AttachToTriplets(ts: seq<Card>, ss: seq<Card>, k: nat) returns (combos: seq<seq<Card>>)
    ensures combos == TripletAttach(ts, ss, k)
  {
    combos := [];
    for a := 0 to |ts|
      invariant combos == TripletAttach(ts[..a], ss, k)
    {
      assert ts[..a + 1][..a] == ts[..a];
      for b := 0 to |ss|
        invariant combos == TripletAttach(ts[..a], ss, k) + Pairings(ts[a], ss[..b], k)
      {
        assert ss[..b + 1][..b] == ss[..b];
        if ts[a] != ss[b] {
          combos := combos + [Copies(ts[a], 3) + Copies(ss[b], k)];
        }
      }
      assert ss[..|ss|] == ss;
    }
    assert ts[..|ts|] == ts;
  }

  /** valid_*_ranks: the attachment ranks not in the base. */
  method RanksOutside(pool: seq<Card>, base: seq<Card>) returns (valid: seq<Card>)
    ensures valid == Without(pool, base)
  {
    valid := [];
    for i := 0 to |pool|
      invariant valid == Without(pool[..i], base)
    {
      assert pool[..i + 1][..i] == pool[..i];
      if pool[i] !in base {
        valid := valid + [pool[i]];
      }
    }
    assert pool[..|pool|] == pool;
  }

  /** The loop over the attachment choices (beat_the_landlord.py:679-687):
      build the run and its attachments, and keep the combo unless the
      joker rule rejects it. */
  method AttachEach(base: seq<Card>, baseCopies: nat, atts: seq<seq<Card>>, k: nat, jokerRule: bool)
    returns (combos: seq<seq<Card>>)
    ensures combos == Attached(base, baseCopies, atts, k, jokerRule)
  {
    combos := [];
    for i := 0 to |atts|
      invariant combos == Attached(base, baseCopies, atts[..i], k, jokerRule)
    {
      assert atts[..i + 1][..i] == atts[..i];
      var found := ExpandRanks(base, baseCopies);
      var attached := ExpandRanks(atts[i], k);
      found := found + attached;
      if !(jokerRule && BLACK_JOKER in found && RED_JOKER in found) {
        combos := combos + [found];
      }
    }
    assert atts[..|atts|] == atts;
  }

  /** The sequence-of-triplets-with-attachments loops over the windows found. */
  method AttachToRuns(ws: seq<seq<Card>>, pool: seq<Card>, k: nat, jokerRule: bool)
    returns (combos: seq<seq<Card>>)
    ensures combos == RunsWithAttachments(ws, pool, k, jokerRule)
  {
    combos := [];
    for a := 0 to |ws|
      invariant combos == RunsWithAttachments(ws[..a], pool, k, jokerRule)
    {
      assert ws[..a + 1][..a] == ws[..a];
      var sequence := ws[a];
      var valid := RanksOutside(pool, sequence);
      if |valid| >= |sequence| {
        var added := AttachEach(sequence, 3, Combinations(valid, |sequence|), k, jokerRule);
        combos := combos + added;
      }
    }
    assert ws[..|ws|] == ws;
  }

  /** The quad-with-attachments loops over the quad ranks. */
  method AttachToQuads(qs: seq<Card>, pool: seq<Card>, k: nat, jokerRule: bool)
    returns (combos: seq<seq<Card>>)
    ensures combos == QuadsWithAttachments(qs, pool, k, jokerRule)
  {
    combos := [];
    for a := 0 to |qs|
      invariant combos == QuadsWithAttachments(qs[..a], pool, k, jokerRule)
    {
      assert qs[..a + 1][..a] == qs[..a];
      var valid := RanksOutside(pool, [qs[a]]);
      if |valid| >= 2 {
        var added := AttachEach([qs[a]], 4, Combinations(valid, 2), k, jokerRule);
        combos := combos + added;
      }
    }
    assert qs[..|qs|] == qs;
  }

  /** get_combos(hand, combo_type): ValueError for a card outside RANK_ORDER,
      otherwise every combo of the type in the hand, in the order the source
      builds them; an unknown type gives []. The hand is a value and is left
      as it was. */
  method GetCombos(hand: seq<Card>, kind: ComboKind) returns (r: Result<seq<seq<Card>>>)
    ensures r.Ok? <==> AllValid(hand)
    ensures r.Err? ==> r.error == InvalidCard
    ensures r.Ok? ==> r.value == Generate(hand, kind)
  {
    var ok := AllInRankOrder(hand);
    if !ok {
      return Err(InvalidCard);
    }
    var combos := CombosOf(hand, kind);
    return Ok(combos);
  }

  /** The body of get_combos after its validity check. */
  method CombosOf(hand: seq<Card>, kind: ComboKind) returns (combos: seq<seq<Card>>)
    requires AllValid(hand)
    ensures combos == Generate(hand, kind)
  {
    var counts := RankCounts(hand);
    TallyFacts(hand);
    combos := [];
    match kind {
      case Single =>
        var ranks := SortedKeys(hand);
        combos := SingleCombos(hand, ranks);
      case SequenceOfSingles =>
        combos := FindWindows(counts.Keys, 5);
      case Pair =>
        var ranks := SortedKeys(hand);
        combos := SameRankCombos(hand, counts, ranks, 2);
      case SequenceOfPairs =>
        var pairRanks := RanksHeld(hand, counts, 2);
        combos := PlainSequences(pairRanks, 3, 2);
      case Triplet =>
        var ranks := SortedKeys(hand);
        combos := SameRankCombos(hand, counts, ranks, 3);
      case TripletWithSingle =>
        var ranks := SortedKeys(hand);
        var tripletRanks, singleRanks := RanksHeldTwice(hand, counts, ranks, 3, 1);
        combos := AttachToTriplets(tripletRanks, singleRanks, 1);
      case TripletWithPair =>
        var ranks := SortedKeys(hand);
        var tripletRanks, pairRanks := RanksHeldTwice(hand, counts, ranks, 3, 2);
        combos := AttachToTriplets(tripletRanks, pairRanks, 2);
      case SequenceOfTriplets =>
        var tripletRanks := RanksHeld(hand, counts, 3);
        combos := PlainSequences(tripletRanks, 2, 3);
      case SequenceOfTripletsWithSingles =>
        var tripletRanks := RanksHeld(hand, counts, 3);
        var runs := FindWindows(tripletRanks, 2);
        var ranks := SortedKeys(hand);
        var singleRanks := RanksHeldList(hand, counts, ranks, 1);
        combos := AttachToRuns(runs, singleRanks, 1, true);
      case SequenceOfTripletsWithPairs =>
        var tripletRanks := RanksHeld(hand, counts, 3);
        var runs := FindWindows(tripletRanks, 2);
        var ranks := SortedKeys(hand);
        var pairRanks := RanksHeldList(hand, counts, ranks, 2);
        combos := AttachToRuns(runs, pairRanks, 2, false);
      case QuadWithTwoSingles =>
        var ranks := SortedKeys(hand);
        var quadRanks, singleRanks := RanksHeldTwice(hand, counts, ranks, 4, 1);
        combos := AttachToQuads(quadRanks, singleRanks, 1, true);
      case QuadWithTwoPairs =>
        var ranks := SortedKeys(hand);
        var quadRanks, pairRanks := RanksHeldTwice(hand, counts, ranks, 4, 2);
        combos := AttachToQuads(quadRanks, pairRanks, 2, false);
      case Bomb =>
        var ranks := SortedKeys(hand);
        combos := SameRankCombos(hand, counts, ranks, 4);
      case Rocket =>
        if BLACK_JOKER in counts && RED_JOKER in counts {
          combos := [[BLACK_JOKER, RED_JOKER]];
        }
      case InvalidCombo =>
    }
  }
}
