/** get_computer_move: the computer's choice, given the combo to beat (None
    on a new round) and its hand. */
module Player {
  import opened Results
  import opened Ranks
  import opened Tallies
  import opened Shapes
  import opened Strength
  import opened Generation
  import opened GenerationFacts
  import opened Generator

  /** What get_computer_move returns: a combo to play, the string "pass", or,
      when the new-round loop finds no combo type with a combo, the None of a
      function that ends without a return. */
  datatype Move = Play(combo: seq<Card>) | Pass | NoMove

  /** The new-round loop over the remaining types: the first combo of the
      first type that has one. */
  function FirstAvailable(hand: seq<Card>, kinds: seq<ComboKind>): Move {
    if kinds == [] then NoMove
    else if Generate(hand, kinds[0]) != [] then Play(Generate(hand, kinds[0])[0])
    else FirstAvailable(hand, kinds[1..])
  }

  /** candidate_combos of the answering branch: the combos of the played type,
      then the bombs unless a bomb was played, then the rocket unless a rocket
      was played. */
  function Candidates(kind: ComboKind, hand: seq<Card>): seq<seq<Card>> {
    Generate(hand, kind)
    + (if kind != Bomb then Generate(hand, Bomb) else [])
    + (if kind != Rocket then Generate(hand, Rocket) else [])
  }

  /** The first candidate that beats the played combo, or "pass". */
  function FirstPlayable(played: seq<Card>, cands: seq<seq<Card>>): Move {
    if cands == [] then Pass
    else if IsPlayable(Some(played), cands[0]) then Play(cands[0])
    else FirstPlayable(played, cands[1..])
  }

  /** get_computer_move as a function of its arguments. */
  function ComputerMove(played: Option<seq<Card>>, hand: seq<Card>): Result<Move> {
    if hand == [] then Err(EmptyHand)
    else if !AllValid(hand) then Err(InvalidCard)
    else if played.None? then Ok(FirstAvailable(hand, DEFINED_COMBOS))
    else Ok(FirstPlayable(played.value, Candidates(GetComboType(played.value), hand)))
  }

  /** Adding the bombs and the rocket to the candidates one at a time
      (beat_the_landlord.py:806-810): the candidates followed by `extra`. */
  method AppendAll(candidates: seq<seq<Card>>, extra: seq<seq<Card>>) returns (r: seq<seq<Card>>)
    ensures r == candidates + extra
  {
    r := candidates;
    for i := 0 to |extra|
      invariant r == candidates + extra[..i]
    {
      assert extra[..i + 1] == extra[..i] + [extra[i]];
      r := r + [extra[i]];
    }
    assert extra[..|extra|] == extra;
  }

  lemma AvailableStep(hand: seq<Card>, kinds: seq<ComboKind>, i: nat)
    requires i < |kinds|
    ensures FirstAvailable(hand, kinds[i..])
      == if Generate(hand, kinds[i]) != [] then Play(Generate(hand, kinds[i])[0])
         else FirstAvailable(hand, kinds[i + 1..])
  {
    assert kinds[i..][1..] == kinds[i + 1..];
  }

  /** The new-round branch: the first combo of the first type in
      DEFINED_COMBOS that the hand has. */
  method NewRoundMove(hand: seq<Card>) returns (move: Move)
    requires AllValid(hand)
    ensures move == FirstAvailable(hand, DEFINED_COMBOS)
  {
    var kinds := DEFINED_COMBOS;
    var i := 0;
    while i < |kinds|
      invariant 0 <= i <= |kinds|
      invariant FirstAvailable(hand, kinds) == FirstAvailable(hand, kinds[i..])
    {
      var candidates := CombosOf(hand, kinds[i]);
      AvailableStep(hand, kinds, i);
      if |candidates| != 0 {
        return Play(candidates[0]);
      }
      i := i + 1;
    }
    return NoMove;
  }

  /** candidate_combos, gathered as the source gathers them. */
  method GatherCandidates(kind: ComboKind, hand: seq<Card>) returns (candidates: seq<seq<Card>>)
    requires AllValid(hand)
    ensures candidates == Candidates(kind, hand)
  {
    candidates := CombosOf(hand, kind);
    if kind != Bomb {
      var bombs := CombosOf(hand, Bomb);
      candidates := AppendAll(candidates, bombs);
    }
    if kind != Rocket {
      var rockets := CombosOf(hand, Rocket);
      candidates := AppendAll(candidates, rockets);
    }
  }

  lemma PlayableStep(played: seq<Card>, cands: seq<seq<Card>>, i: nat)
    requires i < |cands|
    ensures FirstPlayable(played, cands[i..])
      == if IsPlayable(Some(played), cands[i]) then Play(cands[i])
         else FirstPlayable(played, cands[i + 1..])
  {
    assert cands[i..][1..] == cands[i + 1..];
  }

  /** The candidate loop of the answering branch: the first candidate that
      beats the played combo, or "pass". */
  method PickPlayable(played: seq<Card>, candidates: seq<seq<Card>>) returns (move: Move)
    ensures move == FirstPlayable(played, candidates)
  {
    var i := 0;
    while i < |candidates|
      invariant i <= |candidates|
      invariant FirstPlayable(played, candidates) == FirstPlayable(played, candidates[i..])
    {
      PlayableStep(played, candidates, i);
      if IsPlayable(Some(played), candidates[i]) {
        return Play(candidates[i]);
      }
      i := i + 1;
    }
    return Pass;
  }

  /** The answering branch: gather the candidates, then play the first one
      that beats the played combo, or pass. */
  method AnswerMove(played: seq<Card>, hand: seq<Card>) returns (move: Move)
    requires AllValid(hand)
    ensures move == FirstPlayable(played, Candidates(GetComboType(played), hand))
  {
    var comboType := GetComboType(played);
    var candidates := GatherCandidates(comboType, hand);
    move := PickPlayable(played, candidates);
  }

  /** get_computer_move. AssertionError on an empty hand; ValueError when
      get_combos meets a card outside RANK_ORDER (every call to it starts
      with the same check, so the model makes it once, up front); otherwise
      the move ComputerMove describes. The hand is a value and is left as it
      was. */
  method GetComputerMove(played: Option<seq<Card>>, hand: seq<Card>) returns (r: Result<Move>)
    ensures r == ComputerMove(played, hand)
  {
    if |hand| == 0 {
      return Err(EmptyHand);
    }
    var ok := AllInRankOrder(hand);
    if !ok {
      return Err(InvalidCard);
    }
    var move: Move;
    if played.None? {
      move := NewRoundMove(hand);
    } else {
      move := AnswerMove(played.value, hand);
    }
    return Ok(move);
  }
}
