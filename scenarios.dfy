/**
  Whole games played against the view model: a player who always answers
  correctly wins a catalog level after five rounds, and a miss in challenge
  mode resets the streak without touching the recorded best.
*/
module GameScenarios {
  import opened Wrappers
  import opened MusicTheory
  import opened Levels
  import opened Game

  /** The player selects each target note in turn and places it in its slot. */
  method AnswerCorrectly(vm: GameViewModel)
    requires vm.Valid()
    modifies vm, vm.userMelody
    ensures vm.Valid() && vm.userMelody == old(vm.userMelody)
    ensures vm.userMelody[..] == SlotsOf(vm.currentLevel.targetNotes)
    ensures vm.Snap() == old(vm.Snap()).(selectedNote := vm.selectedNote)
  {
    var target := vm.currentLevel.targetNotes;
    for i := 0 to vm.userMelody.Length
      invariant vm.Valid() && vm.userMelody == old(vm.userMelody)
      invariant vm.Snap() == old(vm.Snap()).(selectedNote := vm.selectedNote)
      invariant forall j :: 0 <= j < i ==> vm.userMelody[j] == Some(target[j])
    {
      var _ := vm.SelectNote(target[i]);
      vm.PlaceNoteInSlot(i);
    }
  }

  /** A note other than the given one. */
  function Other(n: Note): (m: Note)
    ensures m != n
  {
    if n == C then D else C
  }

  /** The player answers correctly except in the first slot. */
  method AnswerWithFirstNoteWrong(vm: GameViewModel)
    requires vm.Valid() && vm.userMelody.Length > 0
    modifies vm, vm.userMelody
    ensures vm.Valid() && vm.userMelody == old(vm.userMelody)
    ensures vm.userMelody[..] == SlotsOf(vm.currentLevel.targetNotes)[0 := Some(Other(vm.currentLevel.targetNotes[0]))]
    ensures vm.Snap() == old(vm.Snap()).(selectedNote := vm.selectedNote)
  {
    AnswerCorrectly(vm);
    var _ := vm.SelectNote(Other(vm.currentLevel.targetNotes[0]));
    vm.PlaceNoteInSlot(0);
  }

  /**
    One round answered correctly and submitted: the streak grows by one;
    a sufficient streak outside challenge mode completes the level and
    unlocks the next, otherwise the result is shown and a challenge best
    below the streak is raised to it.
  */
  method PlayCorrectRound(vm: GameViewModel)
    requires vm.Valid()
    modifies vm, vm.userMelody
    ensures vm.Valid() && vm.userMelody == old(vm.userMelody)
    ensures vm.correctStreak == old(vm.correctStreak) + 1 && vm.isComplete
    ensures if vm.correctStreak >= vm.configuration.streakToWin && !vm.isChallenge then
        vm.phase == LevelComplete && vm.challengeBestStreak == old(vm.challengeBestStreak) &&
        vm.unlockedLevelsData == Unlock(old(vm.unlockedLevelsData), vm.configuration.levelNumber)
      else
        vm.phase == Result && vm.unlockedLevelsData == old(vm.unlockedLevelsData) &&
        vm.challengeBestStreak ==
          if vm.isChallenge && vm.correctStreak > old(vm.challengeBestStreak) then vm.correctStreak
          else old(vm.challengeBestStreak)
  {
    AnswerCorrectly(vm);
    FilledOfNotes(vm.currentLevel.targetNotes);
    FeedbackAllTrueIff(vm.currentLevel.targetNotes, vm.currentLevel.targetNotes);
    vm.CheckAnswer();
  }

  /**
    Level 1 played for five rounds, each answered correctly: the fifth
    answer completes the level with a streak of five and level 2 is
    unlocked, starting from a store that held nothing.
  */
  method FiveCorrectRoundsWinLevelOne(shuffles: seq<seq<Note>>, picks: seq<seq<nat>>)
    returns (unlocked: set<int>, phase: GamePhase, streak: nat)
    requires |shuffles| == 5 && |picks| == 5
    requires forall r :: 0 <= r < 5 ==> IsNotePermutation(shuffles[r]) && ValidDraws(AllLevels()[0], picks[r])
    ensures streak == 5 && phase == LevelComplete && unlocked == {1, 2}
  {
    var levelOne := AllLevels()[0];
    var vm := new GameViewModel(levelOne, false, shuffles[0], picks[0], None, 0);
    var round := 0;
    while round < 5
      invariant 0 <= round <= 5
      invariant fresh(vm) && fresh(vm.userMelody) && vm.Valid()
      invariant vm.configuration == levelOne && !vm.isChallenge
      invariant vm.correctStreak == round
      invariant vm.unlockedLevelsData == if round == 5 then Some({1, 2}) else None
      invariant round == 5 ==> vm.phase == LevelComplete
    {
      if round > 0 {
        vm.NextLevel(shuffles[round], picks[round], 0);
      }
      var _ := vm.PlayTargetMelody();
      vm.StartPlaying();
      PlayCorrectRound(vm);
      assert levelOne.levelNumber == 1 && levelOne.streakToWin == 5;
      assert DecodeUnlocked(None) + {2} == {1, 2};
      round := round + 1;
    }
    unlocked, phase, streak := vm.UnlockedLevels(), vm.phase, vm.correctStreak;
  }

  /**
    Challenge mode with a stored best: three correct rounds raise the best
    to at least three, then a miss resets the streak to zero, shows the
    result and leaves the best where the third round put it.
  */
  method ChallengeMissKeepsBest(lengths: seq<int>, shuffles: seq<seq<Note>>, picks: seq<seq<nat>>, storedBest: int)
    returns (streak: nat, best: int, phase: GamePhase)
    requires storedBest >= 0
    requires |lengths| == 4 && |shuffles| == 4 && |picks| == 4
    requires forall r :: 0 <= r < 4 ==> 4 <= lengths[r] <= 7
    requires forall r :: 0 <= r < 4 ==>
      IsNotePermutation(shuffles[r]) && ValidDraws(ChallengeMode(lengths[r]), picks[r])
    ensures streak == 0 && phase == Result
    ensures best == if storedBest >= 3 then storedBest else 3
  {
    var vm := new GameViewModel(ChallengeMode(lengths[0]), true, shuffles[0], picks[0], None, storedBest);
    var round := 0;
    while round < 3
      invariant 0 <= round <= 3
      invariant fresh(vm) && fresh(vm.userMelody) && vm.Valid() && vm.isChallenge
      invariant vm.correctStreak == round
      invariant vm.challengeBestStreak == if storedBest >= round then storedBest else round
    {
      if round > 0 {
        vm.NextLevel(shuffles[round], picks[round], lengths[round]);
      }
      PlayCorrectRound(vm);
      round := round + 1;
    }
    vm.NextLevel(shuffles[3], picks[3], lengths[3]);
    AnswerWithFirstNoteWrong(vm);
    var target := vm.currentLevel.targetNotes;
    var slots := SlotsOf(target)[0 := Some(Other(target[0]))];
    FilledComplete(slots);
    assert !AllTrue(Feedback(Filled(slots), target)) by {
      assert Filled(slots)[0] == Other(target[0]);
    }
    vm.CheckAnswer();
    streak, best, phase := vm.correctStreak, vm.challengeBestStreak, vm.phase;
  }
}
