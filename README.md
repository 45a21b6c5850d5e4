# Beat the Landlord: a verified model of the rule engine

`beat_the_landlord.py` plays Dou Dizhu ("Beat the Landlord"), a three-player
shedding game played with a 54-card deck. Its rule engine does five things:

- It classifies a group of cards as one of fourteen combo types, or rejects it.
- It computes a strength value, so that two combos of one type can be compared.
- It decides whether a combo beats the combo on the table.
- It lists every combo of a given type that a hand contains.
- It chooses the computer's move: a combo to play, or "pass".

It also removes a played combo from a hand.

This Dafny project models that engine and proves what it promises.

A card is its index in `RANK_ORDER`: "3" is 0, "A" is 11, "2" is 12, the black
joker is 13 and the red joker is 14. Suits play no part in the game. An integer
outside 0..14 stands for a symbol that is not in `RANK_ORDER`. Every
`ValueError` and `AssertionError` the source raises becomes an `Err` of a
`Result` (module `Results`).

Modules, one per part of the engine:

- `Ranks`: rank order, sortedness, runs and the count signature of a group of cards.
- `Tallies`: the source's dictionary and sorting loops (`sorted_cards`, `get_rank`).
- `Shapes`: the fourteen shape predicates and `get_combo_type`.
- `Classifier`: the counting `is_*` tests, proved equal to the shapes.
- `Strength`: `get_combo_rank` and `is_playable`.
- `Choices`: `itertools.combinations`.
- `Generation`: what `get_combos` returns, as functions.
- `GenerationFacts`: what is proved about those functions.
- `Completeness`: which combos of a hand those lists are sure to contain.
- `Generator`: the loops of `get_combos`.
- `Player` and `PlayerFacts`: `get_computer_move`, and what is proved about it.
- `Hands`: `remove_combo_from_hand`, as a class whose `cards` field is updated in place.

Each loop of the source is a method. Each method is proved equal to a
specification function, and the lemmas state what the source promises about
that function.

## Model

| member | source | states |
|---|---|---|
| Ranks.GetRank | beat_the_landlord.py:81-88 | a card in RANK_ORDER gets its index, below len(RANK_ORDER); any other card raises ValueError |
| Ranks.RankList | beat_the_landlord.py:563 | the sorted distinct ranks of a set: strictly increasing, containing exactly the set's valid members |
| Ranks.Lowest | beat_the_landlord.py:428-430 | the first rank of the sorted list is a member of the set and is no greater than any valid member |
| Ranks.SortedUnique | beat_the_landlord.py:67-79 | two sorted lists holding the same cards are equal, so the sorted order of a group is unique |
| Ranks.SortedConsecutiveIff | beat_the_landlord.py:143-147 | a sorted valid group passes the adjacency loop exactly when every rank occurs once and the ranks form an unbroken run |
| Ranks.IncreasingConsecutiveIff | beat_the_landlord.py:182-185 | the sorted distinct ranks of a set pass the adjacency loop exactly when the set is an unbroken run |
| Ranks.ExpandCount | beat_the_landlord.py:595-598 | repeating each rank of an increasing list k times yields each listed rank exactly k times and no other card |
| Tallies.AllInRankOrder | beat_the_landlord.py:552-554 | the validity loop accepts exactly when every card is in RANK_ORDER |
| Tallies.SortedCards | beat_the_landlord.py:67-79 | ValueError exactly when a card is outside RANK_ORDER; otherwise the result is sorted and is a permutation of the input |
| Tallies.CollectRank | beat_the_landlord.py:76-78 | the inner loop appends every copy of the current rank that the input holds, and nothing else |
| Tallies.BucketSortSorted | beat_the_landlord.py:75-78 | collecting the ranks in RANK_ORDER yields a sorted list that uses only the ranks visited |
| Tallies.BucketSortCounts | beat_the_landlord.py:75-78 | the collected list keeps each visited rank as often as the input holds it and drops every other card |
| Tallies.BucketSortPermutation | beat_the_landlord.py:67-79 | for valid cards, the rank-by-rank collection is sorted and holds exactly the input's cards |
| Tallies.RankCounts | beat_the_landlord.py:557-561 | the frequency dictionary loop builds the rank -> count table of the cards |
| Tallies.TallyFacts | beat_the_landlord.py:557-561 | the table's keys are exactly the cards present, and each value is that card's multiplicity |
| Tallies.TallyKeys | beat_the_landlord.py:181 | the dictionary's key list holds each card present exactly once |
| Tallies.SortDistinct | beat_the_landlord.py:182 | sorting distinct valid ranks yields them in strictly increasing order |
| Tallies.SortedKeys | beat_the_landlord.py:563 | the sorted keys of the hand's table are the increasing list of the distinct ranks held |
| Tallies.CountsAmong | beat_the_landlord.py:214-216 | the count filter accepts exactly when every rank is held a or b times |
| Tallies.AllKeysCount | beat_the_landlord.py:176-178 | the loop accepts exactly when every rank is held k times |
| Tallies.CountValues | beat_the_landlord.py:217-219 | counts_list.count(k) is the number of ranks held exactly k times |
| Tallies.SplitByCount | beat_the_landlord.py:290-296 | the two lists hold, once each, exactly the ranks held a times and (when b differs) exactly those held b times |
| Tallies.ConsecutiveRanks | beat_the_landlord.py:144-146 | the adjacency loop accepts exactly when each rank is one above the previous |
| Tallies.KeysWithCount | beat_the_landlord.py:472-475 | the triplet_ranks loop lists, once each, exactly the ranks held k times |
| Tallies.LastKeyWithCount | beat_the_landlord.py:445-448 | the triplet_rank loop finds a rank exactly when some rank is held k times, and the rank it finds is held k times |
| Shapes.IsSingle | beat_the_landlord.py:127-131 | one valid card |
| Shapes.IsPair | beat_the_landlord.py:149-158 | two valid cards of one rank |
| Shapes.IsTriplet | beat_the_landlord.py:188-197 | three valid cards of one rank |
| Shapes.IsBomb | beat_the_landlord.py:397-406 | four valid cards of one rank |
| Shapes.IsRocket | beat_the_landlord.py:409-418 | exactly the black and the red joker |
| Shapes.GetComboType | beat_the_landlord.py:90-125 | any answer other than "invalid combo" is a type whose shape the group has |
| Shapes.GetComboTypeIff | beat_the_landlord.py:90-125 | the answer is type k exactly when the group has shape k; "invalid combo" exactly when it has no shape |
| Shapes.ShapesExclusive | beat_the_landlord.py:95 | the is_* tests are mutually exclusive: no group passes two of them |
| Shapes.ShapeSignature | beat_the_landlord.py:127-418 | every shape is recognised from the count signature alone (which counts occur, how many triplet ranks, how many ranks, the length) |
| Shapes.ShapePermutation | beat_the_landlord.py:127-418 | each is_* test gives the same answer for any reordering of the cards |
| Shapes.GetComboTypePermutation | beat_the_landlord.py:90-125 | get_combo_type ignores the order of the cards |
| Classifier.IsSequenceOfSingles | beat_the_landlord.py:133-147 | valid, at least five cards, no "2" or joker, each rank once, and an unbroken run |
| Classifier.IsPlainSequence | beat_the_landlord.py:165-186 | valid, no "2" or joker, every rank held k times, at least minRanks ranks, and an unbroken run |
| Classifier.IsSequenceOfPairs | beat_the_landlord.py:160-186 | valid, no "2" or joker, every rank held twice, at least three ranks, and an unbroken run |
| Classifier.IsSequenceOfTriplets | beat_the_landlord.py:245-271 | valid, no "2" or joker, every rank held three times, at least two ranks, and an unbroken run |
| Classifier.IsFixedAttachment | beat_the_landlord.py:199-243 | the given length, valid, counts only base or attached, with the given number of ranks of each |
| Classifier.IsTripletWithSingle | beat_the_landlord.py:199-220 | four valid cards: one rank three times and one rank once |
| Classifier.IsTripletWithPair | beat_the_landlord.py:222-243 | five valid cards: one rank three times and one rank twice |
| Classifier.IsRun | beat_the_landlord.py:305-308 | distinct valid ranks pass sorting and the adjacency loop exactly when they form an unbroken run |
| Classifier.IsSequenceWithAttachments | beat_the_landlord.py:273-345 | counts only 3 or the attachment count, as many attachment ranks as triplet ranks, no "2" among the triplets, at least two triplet ranks in an unbroken run, and (when the joker rule applies) not both jokers among the attachments |
| Classifier.IsSequenceOfTripletsWithSingles | beat_the_landlord.py:273-309 | the triplets-with-singles shape, including the rule against both jokers as singles |
| Classifier.IsSequenceOfTripletsWithPairs | beat_the_landlord.py:311-345 | the triplets-with-pairs shape |
| Classifier.IsQuadWithTwoSingles | beat_the_landlord.py:347-371 | six valid cards, not both jokers: one rank four times and two ranks once each |
| Classifier.IsQuadWithTwoPairs | beat_the_landlord.py:373-395 | eight valid cards: one rank four times and two ranks twice each |
| Strength.ComboRank | beat_the_landlord.py:421-520 | None exactly for an invalid combo; otherwise a value in 0..len(RANK_ORDER), equal to len(RANK_ORDER) exactly for the rocket |
| Strength.ComboRankMeaning | beat_the_landlord.py:421-520 | single, pair, triplet and bomb: the rank all cards share; plain sequences: their lowest card; triplet-based types: the lowest rank held three times; quad-based types: a rank held four times |
| Strength.ComboRankPermutation | beat_the_landlord.py:421-520 | reordering a combo's cards does not change its strength |
| Strength.GetComboRank | beat_the_landlord.py:421-520 | each branch's computation yields ComboRank |
| Strength.LowestOfSorted | beat_the_landlord.py:428-430 | the rank of the first sorted card is the lowest rank of the combo |
| Strength.OnlyRankWithCount | beat_the_landlord.py:438-449 | when exactly one rank is held k times, the dictionary loop returns that rank |
| Strength.LowestTripletRank | beat_the_landlord.py:465-477 | the first of the sorted triplet ranks is the lowest rank held three times |
| Strength.IsPlayable | beat_the_landlord.py:522-545 | only a valid combo is playable; on a new round every valid combo is |
| Strength.KnownTypes | beat_the_landlord.py:120-123 | a group that passes is_rocket is classified "rocket", and one that passes is_bomb is classified "bomb" |
| Strength.RocketRules | beat_the_landlord.py:531-534 | the rocket beats every combo but a rocket, and nothing beats a rocket |
| Strength.BombRules | beat_the_landlord.py:535-537 | a bomb beats every combo that is neither a bomb nor a rocket |
| Strength.BombVsBomb | beat_the_landlord.py:535-539 | a bomb's strength is its rank, and a bomb beats another bomb exactly when its rank is higher |
| Strength.SameTypeRule | beat_the_landlord.py:540-545 | unless a rocket is played or a rocket or bomb is laid, a combo beats another exactly when it is valid, of the same type and length, and stronger |
| Strength.IsPlayableIrreflexive | beat_the_landlord.py:522-545 | no combo beats itself |
| Strength.IsPlayableTransitive | beat_the_landlord.py:522-545 | if b beats a and c beats b, then c beats a |
| Strength.IsPlayableAsymmetric | beat_the_landlord.py:522-545 | two combos never beat each other |
| Strength.SinglesOrder | beat_the_landlord.py:522-545 | a single [y] beats a single [x] exactly when x < y |
| Choices.Combinations | beat_the_landlord.py:678 | there are combinations exactly when k is at most the number of elements |
| Choices.CombinationsMembers | beat_the_landlord.py:678 | every combination has k elements, all drawn from the list |
| Choices.CombinationsIncreasing | beat_the_landlord.py:678 | the combinations of an increasing list keep its order, so each is increasing |
| Choices.CombinationsLexSorted | beat_the_landlord.py:678 | the combinations come out in strictly increasing lexicographic order, so none repeats |
| Choices.CombinationsComplete | beat_the_landlord.py:678 | every increasing choice of k elements of an increasing list is one of its combinations |
| Generation.SameRank | beat_the_landlord.py:579-583 | every entry is n copies of a listed rank that the hand holds at least n times |
| Generation.Filter | beat_the_landlord.py:610-614 | exactly the listed ranks held at least n times, still increasing when the list is |
| Generation.Without | beat_the_landlord.py:673-676 | exactly the pool's ranks outside the base, still increasing when the pool is |
| Generation.Pairings | beat_the_landlord.py:615-619 | every entry is one triplet rank three times followed by a different rank k times |
| GenerationFacts.WindowsMember | beat_the_landlord.py:569-574 | every window is an unbroken run below "2", its length between the minimum and STRAIGHT_END, and all its ranks are in the set of held ranks it was built from |
| GenerationFacts.TripletAttachMember | beat_the_landlord.py:615-619 | every triplet-with-attachment entry is a triplet rank three times plus a different attachment rank |
| GenerationFacts.AttachedMember | beat_the_landlord.py:679-687 | every entry is the base followed by one attachment choice; under the joker rule it never holds both jokers |
| GenerationFacts.RunsMember | beat_the_landlord.py:672-687 | every entry is a window tripled plus one combination, of the window's length, of the pool's ranks outside the window |
| GenerationFacts.QuadsMember | beat_the_landlord.py:734-748 | every entry is a quad plus one combination of two of the pool's other ranks |
| GenerationFacts.CompositeCounts | beat_the_landlord.py:680-685 | a base repeated a times plus attachments repeated b times holds each base rank a times and each attachment rank b times |
| GenerationFacts.Composite | beat_the_landlord.py:680-685 | such a combo's ranks held a times are exactly the base, and its ranks held b times are exactly the attachments |
| GenerationFacts.AttachmentCombo | beat_the_landlord.py:680-687 | base ranks the hand holds a times, plus attachment ranks outside the base that it holds b times, give a sub-multiset of the hand whose a-count ranks are exactly the base and whose b-count ranks are exactly the attachments |
| GenerationFacts.SameRankSound | beat_the_landlord.py:578-583 | every same-rank combo is n valid cards of one rank, taken from the hand |
| GenerationFacts.PlainRunSound | beat_the_landlord.py:584-600 | every expanded window is taken from the hand and has the plain-sequence shape |
| GenerationFacts.SequenceOfSinglesSound | beat_the_landlord.py:567-577 | every generated sequence of singles is taken from the hand and has that shape |
| GenerationFacts.TripletAttachSound | beat_the_landlord.py:607-634 | every triplet-with-single or triplet-with-pair combo is taken from the hand: 3 + k valid cards, one rank three times and one rank k times |
| GenerationFacts.RunsSound | beat_the_landlord.py:652-725 | every sequence-of-triplets-with-attachments combo is taken from the hand: at least two triplet ranks in an unbroken run without "2", as many attachment ranks, and under the joker rule not both jokers |
| GenerationFacts.QuadsSound | beat_the_landlord.py:726-773 | every quad-with-attachments combo is taken from the hand: one rank four times and two ranks k times, 4 + 2k valid cards, and under the joker rule not both jokers |
| GenerationFacts.ExpandAllMember | beat_the_landlord.py:595-599 | every sequence-of-pairs or sequence-of-triplets combo is one window with each rank repeated |
| GenerationFacts.GenerateSound | beat_the_landlord.py:547-786 | every combo get_combos returns is a sub-multiset of the hand, and get_combo_type classifies it as the requested type |
| GenerationFacts.SameRankAll | beat_the_landlord.py:563-565 | with every rank held, the single list has exactly one entry per rank, in the ranks' order |
| GenerationFacts.SinglesListing | beat_the_landlord.py:562-566 | the singles are one per distinct rank held, in strictly increasing rank order |
| GenerationFacts.LowestSingleFirst | beat_the_landlord.py:562-566 | a non-empty valid hand has singles, and the first is its lowest card |
| GenerationFacts.SameRankComplete | beat_the_landlord.py:579-583 | every listed rank held at least n times yields n copies of it |
| GenerationFacts.SameRankGenerated | beat_the_landlord.py:562-606 | a rank held at least 1, 2, 3 or 4 times yields that single, pair, triplet or bomb |
| Completeness.WindowsComplete | beat_the_landlord.py:569-576 | the converse of WindowsMember: every run of at least the minimum length, below "2", whose ranks the hand holds is one of the windows listed |
| Completeness.WindowsUpToComplete | beat_the_landlord.py:570-576 | a held run of any length from the minimum up to the largest length tried is listed by the outer loop |
| Completeness.WindowsOfLengthComplete | beat_the_landlord.py:571-576 | a held run of a given length whose start the inner loop reaches is listed |
| Completeness.ExpandAllComplete | beat_the_landlord.py:595-599 | writing each rank of a listed window k times gives one of the listed combos |
| Completeness.PlainRunWindow | beat_the_landlord.py:133-148 | the ranks of a sequence of singles (and, by is_sequence_of_pairs and is_sequence_of_triplets at :160-187 and :245-272, of pairs or triplets) form one window below "2", and writing that window back out gives the combo's cards |
| Completeness.PlainSequencesComplete | beat_the_landlord.py:567-651 | every sequence of singles, pairs or triplets a hand holds is listed by get_combos for its type, as the same cards in rank order |
| Completeness.JokerTripletRun | beat_the_landlord.py:299-308 | a hand with three of each joker plus a "3" and a "4" is classified as a sequence of triplets with singles, yet get_combos lists no such combo for it, because the windows (:658-664) stop below "2" |
| Completeness.JokerPairRun | beat_the_landlord.py:337-345 | the same gap for a sequence of triplets with pairs (windows at :695-701) |
| Generator.SingleCombos | beat_the_landlord.py:562-566 | the single loop yields one single per sorted rank |
| Generator.SameRankCombos | beat_the_landlord.py:578-583 | the pair, triplet and bomb loops yield n copies of each sorted rank held at least n times |
| Generator.RanksHeld | beat_the_landlord.py:585-588 | the set built is exactly the ranks held at least k times |
| Generator.RanksHeldList | beat_the_landlord.py:666-669 | the list built is exactly the sorted ranks held at least k times |
| Generator.RanksHeldTwice | beat_the_landlord.py:608-614 | the two lists are the sorted ranks held at least a times and at least b times |
| Generator.WindowsOf | beat_the_landlord.py:571-576 | the inner window loop keeps exactly the windows of one length whose ranks are all held, by start |
| Generator.FindWindows | beat_the_landlord.py:567-577 | the windows of every allowed length whose ranks are all held, shorter lengths first |
| Generator.ExpandRanks | beat_the_landlord.py:595-598 | each rank of the window is appended k times, in order |
| Generator.PlainSequencesOf | beat_the_landlord.py:591-599 | the inner loop yields the expanded windows of one length |
| Generator.PlainSequences | beat_the_landlord.py:589-600 | the sequence-of-pairs and sequence-of-triplets loops yield every expanded window |
| Generator.AttachToTriplets | beat_the_landlord.py:615-619 | the double loop pairs each triplet rank with each different attachment rank |
| Generator.RanksOutside | beat_the_landlord.py:673-676 | the attachment pool without the base ranks |
| Generator.AttachEach | beat_the_landlord.py:679-687 | one combo per attachment choice, dropping those with both jokers when the joker rule applies |
| Generator.AttachToRuns | beat_the_landlord.py:672-687 | the attachment loop over all windows of triplets |
| Generator.AttachToQuads | beat_the_landlord.py:734-748 | the attachment loop over all quad ranks |
| Generator.GetCombos | beat_the_landlord.py:547-786 | ValueError exactly for a hand with a card outside RANK_ORDER; otherwise the combos Generate describes, and [] for an unknown type |
| Generator.CombosOf | beat_the_landlord.py:555-786 | after the validity check, each branch yields the combos Generate describes |
| Player.AppendAll | beat_the_landlord.py:806-810 | appending each bomb or rocket in turn extends the candidates by exactly that list |
| Player.NewRoundMove | beat_the_landlord.py:796-801 | the new-round loop returns the first combo of the first type in DEFINED_COMBOS that has one |
| Player.GatherCandidates | beat_the_landlord.py:803-810 | the candidates are the combos of the played type, then the bombs unless a bomb was played, then the rocket unless a rocket was played |
| Player.PickPlayable | beat_the_landlord.py:811-818 | the first candidate that beats the played combo, or "pass" |
| Player.AnswerMove | beat_the_landlord.py:802-818 | the answering branch plays the first playable candidate or passes |
| Player.GetComputerMove | beat_the_landlord.py:788-818 | AssertionError for an empty hand, ValueError for an invalid card, otherwise the move ComputerMove describes |
| PlayerFacts.FirstPlayableIndex | beat_the_landlord.py:811-818 | the scan returns a move; it passes exactly when no candidate beats the played combo; a played combo beats it and every earlier candidate does not |
| PlayerFacts.CandidateSound | beat_the_landlord.py:803-810 | every candidate comes from the hand and is of the played type, a bomb or the rocket |
| PlayerFacts.NewRoundPlaysLowest | beat_the_landlord.py:796-801 | on a new round the computer plays its lowest card as a single, so it never passes |
| PlayerFacts.AnswerSound | beat_the_landlord.py:802-815 | a card played in answer comes from the hand, beats the played combo, is of the played type, a bomb or the rocket, and is the first such candidate |
| PlayerFacts.AnswerPass | beat_the_landlord.py:811-818 | when answering the result is always a combo or "pass", and "pass" exactly when no candidate beats the played combo |
| PlayerFacts.RocketCandidate | beat_the_landlord.py:808-810 | a hand with both jokers always has the rocket among its candidates |
| PlayerFacts.RocketNeverPasses | beat_the_landlord.py:802-815 | a valid hand with both jokers never passes unless the played combo is a rocket |
| PlayerFacts.BombNeverPasses | beat_the_landlord.py:802-815 | a valid hand with a bomb never passes on a combo that is neither a bomb nor a rocket |
| Hands.IndexOf | beat_the_landlord.py:944 | list.remove finds the first occurrence of the card |
| Hands.RemoveFirst | beat_the_landlord.py:944 | list.remove on a card the list holds takes exactly one copy of it and shortens the list by one; it is only called on a held card |
| Hands.RemoveEach | beat_the_landlord.py:943-944 | removing, card by card, a combo the hand holds leaves the hand minus the combo, and the length drops by len(combo) |
| Hands.LackFacts | beat_the_landlord.py:934-940 | the cards missing for one rank are that rank, as many times as the combo holds it beyond the hand |
| Hands.ShortfallCounts | beat_the_landlord.py:933-940 | the uncontained list over increasing ranks holds exactly the combo's excess over the hand, and it is sorted |
| Hands.MissingMeaning | beat_the_landlord.py:933-941 | the uncontained list is the combo minus the hand, sorted, and empty exactly when the hand holds the whole combo |
| Hands.RemovalMeaning | beat_the_landlord.py:910-944 | the removal succeeds exactly when both lists are valid and the hand holds the combo; the error then lists exactly the missing cards in RANK_ORDER; on success the hand loses exactly the combo |
| Hands.Hand.AppendCopies | beat_the_landlord.py:935-936 | the range loop appends n copies of the card |
| Hands.Hand.AppendShortfall | beat_the_landlord.py:934-940 | both branches append exactly the cards missing for that rank |
| Hands.Hand.Uncontained | beat_the_landlord.py:920-940 | the uncontained_cards list the source builds is the model's Missing list |
| Hands.Hand.RemoveCombo | beat_the_landlord.py:910-944 | on success the hand becomes RemovedFrom's result; on any error it is left as it was |

## Left out

- Deck construction and shuffling (`generate_shuffled_deck`, beat_the_landlord.py:32-44) depend on randomness and are not part of this model.
- Dealing (`deal_hands_with_leftovers`, beat_the_landlord.py:46-65) is not part of this model either.
- `get_player_move` (beat_the_landlord.py:820-908) reads the console, and the `__main__` game loop (beat_the_landlord.py:947-1039) handles turns, printing and win detection. Both are console I/O and are left out.
- Card symbols are their indices in RANK_ORDER. Symbol strings and suits are not modelled, and the game has no suits.
- Combo types are the `ComboKind` datatype, not strings. `InvalidCombo` stands for "invalid combo" and also for any type name outside DEFINED_COMBOS, for which get_combos returns [].
- Dictionary iteration order is not modelled. Every use of it in the source is order-insensitive: the loops are proved against sets and counts, and the one loop that keeps its last match, the triplet_rank/quad_rank loop, runs where exactly one rank qualifies.
- `itertools.combinations` is the verified function `Choices.Combinations`. Its order is lexicographic by position, as itertools documents.
- GenerationFacts.GenerateSound: states soundness only, not that get_combos lists "all the possible combos" (beat_the_landlord.py:548-550). Completeness is proved separately:
  - for the single, pair, triplet and bomb lists (`GenerationFacts.SameRankGenerated`);
  - for the three plain sequence types (`Completeness.PlainSequencesComplete`);
  - for `Combinations`.
  It is not proved for the types with attachments, because the attachment lists are unproved.
  For the two sequence types with attachments it does not hold for every hand. `Completeness.JokerTripletRun` and `Completeness.JokerPairRun` show why: the classifier accepts the two jokers as adjacent triplets, but the windows stop below "2". Such a hand needs three jokers of one colour, and a deck holds one of each, so it is never dealt.
- `Generation.Windows` and the other list functions that describe `get_combos`' output state their order in their definitions. Their members are described by separate lemmas (`WindowsMember`, `RunsMember` and so on), not by ensures clauses.
- Strength.GetComboRank: get_combo_rank repeats get_combo_type's chain of is_* tests. The model takes the type from `GetComboType`, which `Shapes.GetComboTypeIff` proves equal to that chain, and then computes each branch's rank as the source does.
- Player.GetComputerMove: the source checks the hand's cards inside every get_combos call. The model checks them once, before branching. Every path calls get_combos at least once on the same hand, so the outcome is the same.
- Player.PickPlayable: the source tests `len(candidate_combos) != 0` before scanning the candidates. The model scans the list directly, since both paths end in "pass".
- Player.ComputerMove: when the new-round loop finds no combo, the source's function ends without a return and yields None. The model keeps this as `NoMove`; `NewRoundPlaysLowest` and `AnswerPass` prove it never happens for a non-empty valid hand.
- Hands.Hand.RemoveCombo: `hand.remove(card)` is modelled by `RemoveFirst` on the `cards` field, which removes the first occurrence. Aliasing of the caller's list is not modelled.
- get_combos' docstring (beat_the_landlord.py:548-550) promises the combos "in sorted order". For the sequence types the code lists them by window length first and then by start (beat_the_landlord.py:568-576), and so does `Generation.Windows`; the model states that order in its definitions and proves no other.
