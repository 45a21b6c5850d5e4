/** What get_computer_move promises: on a new round it plays its lowest card
    and never passes; when answering, whatever it plays comes from its hand,
    beats the played combo and is of the played type, a bomb or the rocket;
    it passes only when no candidate beats the played combo. */
module PlayerFacts {
  import opened Results
  import opened Ranks
  import opened Shapes
  import opened Strength
  import opened Generation
  import opened GenerationFacts
  import opened Player

  /** FirstPlayable picks the first playable candidate, and passes exactly
      when there is none. */
  lemma {:induction false} FirstPlayableIndex(played: seq<Card>, cands: seq<seq<Card>>) returns (i: nat)
    ensures var r := FirstPlayable(played, cands);
      && r != NoMove
      && (r.Pass? <==> forall c | c in cands :: !IsPlayable(Some(played), c))
      && (r.Play? ==> i < |cands| && cands[i] == r.combo && IsPlayable(Some(played), r.combo)
                      && forall j | 0 <= j < i :: !IsPlayable(Some(played), cands[j]))
  {
    if cands == [] {
      i := 0;
    } else if IsPlayable(Some(played), cands[0]) {
      i := 0;
    } else {
      var tail := cands[1..];
      var k := FirstPlayableIndex(played, tail);
      i := k + 1;
      assert FirstPlayable(played, cands) == FirstPlayable(played, tail);
      assert cands == [cands[0]] + tail;
      forall j | 1 <= j < |cands| ensures cands[j] == tail[j - 1] {
      }
    }
  }

  /** Every candidate is a combo of the hand, of the played type, a bomb or
      the rocket. */
  lemma CandidateSound(kind: ComboKind, hand: seq<Card>, c: seq<Card>)
    requires c in Candidates(kind, hand)
    ensures multiset(c) <= multiset(hand)
    ensures GetComboType(c) == kind || GetComboType(c) == Bomb || GetComboType(c) == Rocket
  {
    if c in Generate(hand, kind) {
      GenerateSound(hand, kind, c);
    } else if kind != Bomb && c in Generate(hand, Bomb) {
      GenerateSound(hand, Bomb, c);
    } else {
      assert c in Generate(hand, Rocket);
      GenerateSound(hand, Rocket, c);
    }
  }

  /** On a new round the computer plays the lowest card of its hand as a
      single: it never passes and always has a move. */
  lemma NewRoundPlaysLowest(hand: seq<Card>)
    requires hand != [] && AllValid(hand)
    ensures var low := Lowest(RankSet(multiset(hand)));
      && ComputerMove(None, hand) == Ok(Play([low]))
      && low in hand && forall x | x in hand :: low <= x
  {
    LowestSingleFirst(hand);
  }

  /** An answer the computer plays is in its hand, beats the played combo,
      is the first candidate that does, and is of the played type, a bomb or
      the rocket. */
  lemma AnswerSound(played: seq<Card>, hand: seq<Card>, c: seq<Card>) returns (i: nat)
    requires ComputerMove(Some(played), hand) == Ok(Play(c))
    ensures var cands := Candidates(GetComboType(played), hand);
      && i < |cands| && cands[i] == c
      && forall j | 0 <= j < i :: !IsPlayable(Some(played), cands[j])
    ensures IsPlayable(Some(played), c)
    ensures multiset(c) <= multiset(hand)
    ensures GetComboType(c) == GetComboType(played) || GetComboType(c) == Bomb || GetComboType(c) == Rocket
  {
    var cands := Candidates(GetComboType(played), hand);
    i := FirstPlayableIndex(played, cands);
    assert cands[i] in cands;
    CandidateSound(GetComboType(played), hand, c);
  }

  /** The computer passes on a combo exactly when none of its candidates beats
      it; answering never ends without a move. */
  lemma AnswerPass(played: seq<Card>, hand: seq<Card>)
    requires hand != [] && AllValid(hand)
    ensures ComputerMove(Some(played), hand) != Ok(NoMove)
    ensures ComputerMove(Some(played), hand) == Ok(Pass)
            <==> forall c | c in Candidates(GetComboType(played), hand) :: !IsPlayable(Some(played), c)
  {
    var _ := FirstPlayableIndex(played, Candidates(GetComboType(played), hand));
  }

  /** Holding both jokers, the rocket is among the candidates against any
      combo type other than the rocket. */
  lemma RocketCandidate(kind: ComboKind, hand: seq<Card>)
    requires BLACK_JOKER in hand && RED_JOKER in hand && kind != Rocket
    ensures [BLACK_JOKER, RED_JOKER] in Candidates(kind, hand)
  {
    assert BLACK_JOKER in multiset(hand) && RED_JOKER in multiset(hand);
    assert [BLACK_JOKER, RED_JOKER] in Generate(hand, Rocket);
  }

  /** Holding both jokers, the computer never passes on anything but a rocket. */
  lemma RocketNeverPasses(played: seq<Card>, hand: seq<Card>)
    requires AllValid(hand) && BLACK_JOKER in hand && RED_JOKER in hand
    requires !IsRocket(played)
    ensures ComputerMove(Some(played), hand).Ok?
    ensures ComputerMove(Some(played), hand).value.Play?
  {
    var kind := GetComboType(played);
    assert kind != Rocket;
    var rocket := [BLACK_JOKER, RED_JOKER];
    var cands := Candidates(kind, hand);
    RocketCandidate(kind, hand);
    RocketRules(played, rocket);
    assert IsPlayable(Some(played), rocket);
    var move := FirstPlayable(played, cands);
    var _ := FirstPlayableIndex(played, cands);
    assert move != Pass && move != NoMove;
    assert hand != [] && ComputerMove(Some(played), hand) == Ok(move);
  }

  /** Holding four of a kind, the computer never passes on a combo that is
      neither a bomb nor a rocket. */
  lemma BombNeverPasses(played: seq<Card>, hand: seq<Card>, x: Card)
    requires AllValid(hand) && ValidCard(x) && multiset(hand)[x] >= 4
    requires !IsBomb(played) && !IsRocket(played)
    ensures ComputerMove(Some(played), hand).Ok?
    ensures ComputerMove(Some(played), hand).value.Play?
  {
    var kind := GetComboType(played);
    assert kind != Bomb;
    var bomb := Copies(x, 4);
    SameRankGenerated(hand, x);
    GenerateSound(hand, Bomb, bomb);
    assert HasShape(bomb, Bomb);
    var cands := Candidates(kind, hand);
    assert bomb in cands;
    BombRules(played, bomb);
    var move := FirstPlayable(played, cands);
    var _ := FirstPlayableIndex(played, cands);
    assert move != Pass && move != NoMove;
    assert x in hand;
    assert hand != [] && ComputerMove(Some(played), hand) == Ok(move);
  }
}
