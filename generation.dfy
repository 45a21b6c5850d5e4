/** What get_combos returns, stated as functions of the hand: for each combo
    type, the list of combos the source builds, in the order it builds them.
    Every list is written so that it grows at its end, as the source's loops
    append to `combos`. */
module Generation {
  import opened Ranks
  import opened Shapes
  import opened Choices

  /** n copies of each rank of `ranks` held at least n times, in order. */
  function SameRank(ranks: seq<Card>, m: multiset<Card>, n: nat): (r: seq<seq<Card>>)
    requires n > 0
    ensures forall c | c in r :: |c| == n && c == Copies(c[0], n) && c[0] in ranks && m[c[0]] >= n
  {
    if ranks == [] then []
    else
      var last := ranks[|ranks| - 1];
      SameRank(ranks[..|ranks| - 1], m, n) + (if m[last] >= n then [Copies(last, n)] else [])
  }

  /** The ranks of `ranks` held at least n times, in order. */
  function Filter(ranks: seq<Card>, m: multiset<Card>, n: nat): (r: seq<Card>)
    ensures forall x :: x in r <==> x in ranks && m[x] >= n
    ensures Increasing(ranks) ==> Increasing(r)
  {
    if ranks == [] then []
    else
      var prefix, last := ranks[..|ranks| - 1], ranks[|ranks| - 1];
      var rest := Filter(prefix, m, n);
      assert Increasing(ranks) ==> forall i | 0 <= i < |rest| :: rest[i] < last by {
        if Increasing(ranks) {
          forall i | 0 <= i < |rest| ensures rest[i] < last {
            assert rest[i] in prefix;
          }
        }
      }
      rest + (if m[last] >= n then [last] else [])
  }

  /** The ranks of `pool` that are not in `w`, in order. */
  function Without(pool: seq<Card>, w: seq<Card>): (r: seq<Card>)
    ensures forall x :: x in r <==> x in pool && x !in w
    ensures Increasing(pool) ==> Increasing(r)
  {
    if pool == [] then []
    else
      var prefix, last := pool[..|pool| - 1], pool[|pool| - 1];
      var rest := Without(prefix, w);
      assert Increasing(pool) ==> forall i | 0 <= i < |rest| :: rest[i] < last by {
        if Increasing(pool) {
          forall i | 0 <= i < |rest| ensures rest[i] < last {
            assert rest[i] in prefix;
          }
        }
      }
      rest + (if last !in w then [last] else [])
  }

  /** A candidate run of `len` ranks starting at `lo`, below "2". */
  predicate IsWindow(w: seq<Card>, len: nat) {
    |w| == len && len > 0 && 0 <= w[0] && w[0] + len <= STRAIGHT_END && w == Window(w[0], len)
  }

  /** The runs of len ranks starting below `starts` whose ranks all lie in S. */
  function WindowsOfLength(S: set<Card>, len: nat, starts: nat): seq<seq<Card>>
    requires len > 0 && starts + len <= STRAIGHT_END + 1
  {
    if starts == 0 then []
    else
      WindowsOfLength(S, len, starts - 1)
      + (if RunSet(starts - 1, len) <= S then [Window(starts - 1, len)] else [])
  }

  /** The windows of every length from minLen to maxLen, shorter lengths first. */
  function WindowsUpTo(S: set<Card>, minLen: nat, maxLen: nat): seq<seq<Card>>
    requires minLen > 0 && maxLen <= STRAIGHT_END
  {
    if maxLen < minLen then []
    else WindowsUpTo(S, minLen, maxLen - 1) + WindowsOfLength(S, maxLen, STRAIGHT_END + 1 - maxLen)
  }

  /** The sequence windows of get_combos: every run of at least minLen ranks
      below "2" whose ranks all lie in S, by length and then by lowest rank. */
  function Windows(S: set<Card>, minLen: nat): seq<seq<Card>>
    requires minLen > 0
  {
    WindowsUpTo(S, minLen, STRAIGHT_END)
  }

  /** Each window written with k cards per rank. */
  function ExpandAll(ws: seq<seq<Card>>, k: nat): (r: seq<seq<Card>>) {
    seq(|ws|, i requires 0 <= i < |ws| => Expand(ws[i], k))
  }

  /** Three copies of t followed by k copies of s, for every s of `ss` other
      than t, in order. */
  function Pairings(t: Card, ss: seq<Card>, k: nat): (r: seq<seq<Card>>)
    ensures forall c | c in r :: exists s | s in ss && s != t :: c == Copies(t, 3) + Copies(s, k)
  {
    if ss == [] then []
    else
      var last := ss[|ss| - 1];
      Pairings(t, ss[..|ss| - 1], k) + (if t != last then [Copies(t, 3) + Copies(last, k)] else [])
  }

  /** The triplet-with-single and triplet-with-pair lists: each triplet rank in
      turn, paired with each attachment rank in turn. */
  function TripletAttach(ts: seq<Card>, ss: seq<Card>, k: nat): (r: seq<seq<Card>>)
  {
    if ts == [] then []
    else TripletAttach(ts[..|ts| - 1], ss, k) + Pairings(ts[|ts| - 1], ss, k)
  }

  /** Does a combo hold both jokers? */
  predicate BothJokers(c: seq<Card>) {
    BLACK_JOKER in c && RED_JOKER in c
  }

  /** Expand(base, baseCopies) + Expand(att, k) for every attachment choice, in
      order, dropping those with both jokers when jokerRule holds. */
  function Attached(base: seq<Card>, baseCopies: nat, atts: seq<seq<Card>>, k: nat, jokerRule: bool)
    : (r: seq<seq<Card>>)
  {
    if atts == [] then []
    else
      var c := Expand(base, baseCopies) + Expand(atts[|atts| - 1], k);
      Attached(base, baseCopies, atts[..|atts| - 1], k, jokerRule)
      + (if jokerRule && BothJokers(c) then [] else [c])
  }

  /** The sequence-of-triplets-with-attachments list: for each window of
      triplets, every choice of |window| attachment ranks outside the window. */
  function RunsWithAttachments(ws: seq<seq<Card>>, pool: seq<Card>, k: nat, jokerRule: bool)
    : (r: seq<seq<Card>>)
  {
    if ws == [] then []
    else
      var w := ws[|ws| - 1];
      var valid := Without(pool, w);
      RunsWithAttachments(ws[..|ws| - 1], pool, k, jokerRule)
      + (if |valid| >= |w| then Attached(w, 3, Combinations(valid, |w|), k, jokerRule) else [])
  }

  /** The quad-with-attachments list: for each quad rank, every choice of two
      attachment ranks other than it. */
  function QuadsWithAttachments(qs: seq<Card>, pool: seq<Card>, k: nat, jokerRule: bool)
    : (r: seq<seq<Card>>)
  {
    if qs == [] then []
    else
      var q := qs[|qs| - 1];
      var valid := Without(pool, [q]);
      QuadsWithAttachments(qs[..|qs| - 1], pool, k, jokerRule)
      + (if |valid| >= 2 then Attached([q], 4, Combinations(valid, 2), k, jokerRule) else [])
  }

  /** get_combos(hand, kind) for a hand of valid cards. */
  function Generate(hand: seq<Card>, kind: ComboKind): seq<seq<Card>> {
    var m := multiset(hand);
    var ranks := RankList(RankSet(m));
    match kind
    case Single => SameRank(ranks, m, 1)
    case SequenceOfSingles => Windows(RankSet(m), 5)
    case Pair => SameRank(ranks, m, 2)
    case SequenceOfPairs => ExpandAll(Windows(RanksAtLeast(m, 2), 3), 2)
    case Triplet => SameRank(ranks, m, 3)
    case TripletWithSingle => TripletAttach(Filter(ranks, m, 3), Filter(ranks, m, 1), 1)
    case TripletWithPair => TripletAttach(Filter(ranks, m, 3), Filter(ranks, m, 2), 2)
    case SequenceOfTriplets => ExpandAll(Windows(RanksAtLeast(m, 3), 2), 3)
    case SequenceOfTripletsWithSingles =>
      RunsWithAttachments(Windows(RanksAtLeast(m, 3), 2), Filter(ranks, m, 1), 1, true)
    case SequenceOfTripletsWithPairs =>
      RunsWithAttachments(Windows(RanksAtLeast(m, 3), 2), Filter(ranks, m, 2), 2, false)
    case QuadWithTwoSingles => QuadsWithAttachments(Filter(ranks, m, 4), Filter(ranks, m, 1), 1, true)
    case QuadWithTwoPairs => QuadsWithAttachments(Filter(ranks, m, 4), Filter(ranks, m, 2), 2, false)
    case Bomb => SameRank(ranks, m, 4)
    case Rocket => if BLACK_JOKER in m && RED_JOKER in m then [[BLACK_JOKER, RED_JOKER]] else []
    case InvalidCombo => []
  }
}
