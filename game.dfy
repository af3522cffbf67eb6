/**
  The round and progression state machine of the streak game
  (`GameViewModel` in music/models/GameViewModel.swift; the class at
  music/views/StreakGameView.swift:11-170 is an identical copy).

  Sound output is modelled by what the view model asks the sound service
  to do: the `PlaybackStep`s of a melody, or the one note a selection
  auditions. The persisted values (`@AppStorage`) are fields initialised
  from what the store held when the view model was created.
*/
module Game {
  import opened Wrappers
  import opened MusicTheory
  import opened Levels

  // ---------------------------------------------------------------------
  // Answer slots and feedback

  /** The notes in the filled slots, in slot order (`compactMap { $0 }`). */
  function Filled(slots: seq<Option<Note>>): (notes: seq<Note>)
    ensures |notes| <= |slots|
  {
    if slots == [] then []
    else (if slots[0].Some? then [slots[0].value] else []) + Filled(slots[1..])
  }

  /** No slot is empty (the submit button's `!userMelody.contains(nil)`). */
  predicate AllFilled(slots: seq<Option<Note>>)
  {
    forall i :: 0 <= i < |slots| ==> slots[i].Some?
  }

  /** Every slot filled exactly when no slot was dropped, and then the notes are the slots' contents. */
  lemma {:induction false} FilledComplete(slots: seq<Option<Note>>)
    ensures |Filled(slots)| == |slots| <==> AllFilled(slots)
    ensures AllFilled(slots) ==> forall i :: 0 <= i < |slots| ==> Filled(slots)[i] == slots[i].value
  {
    if slots != [] {
      FilledComplete(slots[1..]);
      if AllFilled(slots) {
        assert AllFilled(slots[1..]);
      }
      if |Filled(slots)| == |slots| {
        assert slots[0].Some? by {
          if slots[0].None? {
            assert |Filled(slots[1..])| <= |slots| - 1;
          }
        }
        forall i | 1 <= i < |slots|
          ensures slots[i].Some?
        {
          assert slots[1..][i - 1] == slots[i];
        }
      }
    }
  }

  /** The slots of a round that has just started: all empty. */
  function EmptySlots(n: nat): seq<Option<Note>>
  {
    seq(n, _ => None)
  }

  /** Slots holding exactly the given notes, in order. */
  function SlotsOf(notes: seq<Note>): seq<Option<Note>>
  {
    seq(|notes|, i requires 0 <= i < |notes| => Some(notes[i]))
  }

  /** Slots filled with exactly the given notes are complete and give those notes back. */
  lemma {:induction false} FilledOfNotes(notes: seq<Note>)
    ensures AllFilled(SlotsOf(notes))
    ensures Filled(SlotsOf(notes)) == notes
  {
    if notes != [] {
      assert SlotsOf(notes)[1..] == SlotsOf(notes[1..]);
      FilledOfNotes(notes[1..]);
    }
  }

  /**
    The submission guard AS WRITTEN in the source: the number of filled
    slots must equal the configuration's melody length, where the
    configuration is the one the view model was created with.
  */
  predicate ReadyAsWritten(slots: seq<Option<Note>>, configuredLength: int)
  {
    |Filled(slots)| == configuredLength
  }

  /** The corrected submission guard: every slot of the current round is filled. */
  function Ready(slots: seq<Option<Note>>): (ready: bool)
    ensures ready <==> AllFilled(slots)
  {
    FilledComplete(slots);
    |Filled(slots)| == |slots|
  }

  /** Outside challenge mode the slot count is the configured length, and the two guards agree. */
  lemma ReadyAgreesWithSource(slots: seq<Option<Note>>, configuredLength: int)
    requires |slots| == configuredLength
    ensures Ready(slots) == ReadyAsWritten(slots, configuredLength)
  {
  }

  /**
    The as-written guard rejects a complete answer once a challenge round's
    length differs from the length drawn when the view model was created:
    here the view model was created with 4 slots and the next round has 5.
  */
  lemma ChallengeRoundCannotBeSubmitted()
    ensures var slots := [Some(C), Some(D), Some(E), Some(F), Some(G)];
      AllFilled(slots) && !ReadyAsWritten(slots, 4) && Ready(slots)
  {
    var slots := [Some(C), Some(D), Some(E), Some(F), Some(G)];
    FilledOfNotes([C, D, E, F, G]);
    assert slots == SlotsOf([C, D, E, F, G]);
  }

  /**
    Pointwise correctness (`zip(user, target).map { $0 == $1 }`): as long as
    the shorter of the two sequences, entry i true exactly when the i-th
    notes agree.
  */
  function Feedback(user: seq<Note>, target: seq<Note>): (fb: seq<bool>)
    ensures |fb| == Min(|user|, |target|)
    ensures forall i :: 0 <= i < |fb| ==> (fb[i] <==> user[i] == target[i])
  {
    seq(Min(|user|, |target|), i requires 0 <= i < Min(|user|, |target|) => user[i] == target[i])
  }

  predicate AllTrue(fb: seq<bool>)
  {
    forall i :: 0 <= i < |fb| ==> fb[i]
  }

  /** For answers of the target's length, all feedback is true exactly when the answer is the target. */
  lemma FeedbackAllTrueIff(user: seq<Note>, target: seq<Note>)
    requires |user| == |target|
    ensures AllTrue(Feedback(user, target)) <==> user == target
  {
    if AllTrue(Feedback(user, target)) {
      assert forall i :: 0 <= i < |user| ==> Feedback(user, target)[i];
    }
  }

  // ---------------------------------------------------------------------
  // Unlocked levels

  /**
    Reading the persisted unlocked set: `None` stands for a store that is
    absent or does not decode, which reads as level 1 alone.
  */
  function DecodeUnlocked(data: Option<set<int>>): (levels: set<int>)
    ensures data.None? ==> levels == {1}
  {
    if data.Some? then data.value else {1}
  }

  /**
    `unlockNextLevel` on the stored value: the level after `levelNumber`
    is added and written back when the catalog has it; otherwise the store
    is left as it was.
  */
  function Unlock(data: Option<set<int>>, levelNumber: int): (data': Option<set<int>>)
    ensures DecodeUnlocked(data') ==
      if levelNumber + 1 <= |AllLevels()| then DecodeUnlocked(data) + {levelNumber + 1} else DecodeUnlocked(data)
  {
    if levelNumber + 1 <= |AllLevels()| then Some(DecodeUnlocked(data) + {levelNumber + 1}) else data
  }

  /** Unlocking never locks a level again. */
  lemma UnlockOnlyGrows(data: Option<set<int>>, levelNumber: int)
    ensures DecodeUnlocked(data) <= DecodeUnlocked(Unlock(data, levelNumber))
  {
  }

  /** Winning a catalog level unlocks the next catalog level, and the last level unlocks nothing. */
  lemma UnlockNextCatalogLevel(data: Option<set<int>>, i: nat)
    requires i < |AllLevels()|
    ensures i + 1 < |AllLevels()| ==> AllLevels()[i + 1].levelNumber in DecodeUnlocked(Unlock(data, AllLevels()[i].levelNumber))
    ensures i + 1 == |AllLevels()| ==> Unlock(data, AllLevels()[i].levelNumber) == data
  {
  }

  // ---------------------------------------------------------------------
  // Melody playback

  /** What a melody playback asks for, in order. */
  datatype PlaybackStep =
    | Highlight(index: Option<nat>)                    // publish `playingNoteIndex`
    | PlayNote(note: Note, octave: int, seconds: real) // `soundService.playNote`
    | Sleep(seconds: real)                             // `Task.sleep`

  /** Seconds per beat at a tempo in beats per minute. */
  function BeatDuration(tempo: real): real
    requires tempo > 0.0
  {
    60.0 / tempo
  }

  /** The steps for the entry at index i: highlight it, play it, wait for its length. */
  function EntrySteps(m: Melody, i: nat): seq<PlaybackStep>
    requires m.tempo > 0.0 && i < |m.notes|
  {
    var e := m.notes[i];
    var seconds := BeatDuration(m.tempo) * e.duration;
    [Highlight(Some(i)), PlayNote(e.note, e.octave, seconds), Sleep(seconds)]
  }

  /** The steps for the first k entries. */
  function StepsUpTo(m: Melody, k: nat): (steps: seq<PlaybackStep>)
    requires m.tempo > 0.0 && k <= |m.notes|
    ensures |steps| == 3 * k
  {
    if k == 0 then [] else StepsUpTo(m, k - 1) + EntrySteps(m, k - 1)
  }

  /** All steps of `playMelodyWithAnimation`: every entry in order, then the highlight cleared. */
  function AnimationSteps(m: Melody): seq<PlaybackStep>
    requires m.tempo > 0.0
  {
    StepsUpTo(m, |m.notes|) + [Highlight(None)]
  }

  /** Step 3i highlights entry i, step 3i+1 plays it and step 3i+2 waits for it. */
  lemma {:induction false} StepsUpToAt(m: Melody, k: nat, i: nat)
    requires m.tempo > 0.0 && i < k <= |m.notes|
    ensures StepsUpTo(m, k)[3 * i] == Highlight(Some(i))
    ensures StepsUpTo(m, k)[3 * i + 1] ==
      PlayNote(m.notes[i].note, m.notes[i].octave, BeatDuration(m.tempo) * m.notes[i].duration)
    ensures StepsUpTo(m, k)[3 * i + 2] == Sleep(BeatDuration(m.tempo) * m.notes[i].duration)
  {
    if i < k - 1 {
      StepsUpToAt(m, k - 1, i);
    } else if k > 1 {
      StepsUpToAt(m, k - 1, 0);
    }
  }

  /** The values published to `playingNoteIndex`, in order. */
  function Highlights(steps: seq<PlaybackStep>): seq<Option<nat>>
  {
    if steps == [] then []
    else (if steps[0].Highlight? then [steps[0].index] else []) + Highlights(steps[1..])
  }

  lemma {:induction false} HighlightsAppend(xs: seq<PlaybackStep>, ys: seq<PlaybackStep>)
    ensures Highlights(xs + ys) == Highlights(xs) + Highlights(ys)
  {
    if xs == [] {
      assert xs + ys == ys;
    } else {
      assert (xs + ys)[1..] == xs[1..] + ys;
      HighlightsAppend(xs[1..], ys);
    }
  }

  /** The indices 0, 1, ..., k-1. */
  function Indices(k: nat): (r: seq<Option<nat>>)
    ensures |r| == k
    ensures forall i :: 0 <= i < k ==> r[i] == Some(i)
  {
    if k == 0 then [] else Indices(k - 1) + [Some(k - 1)]
  }

  /** While a melody plays the highlight runs through 0..n-1 in order and is then cleared. */
  lemma {:induction false} HighlightTrace(m: Melody)
    requires m.tempo > 0.0
    ensures Highlights(AnimationSteps(m)) == Indices(|m.notes|) + [None]
  {
    HighlightsUpTo(m, |m.notes|);
    HighlightsAppend(StepsUpTo(m, |m.notes|), [Highlight(None)]);
    assert Highlights([Highlight(None)]) == [None] by {
      assert [Highlight(None)][1..] == [];
    }
  }

  lemma {:induction false} HighlightsUpTo(m: Melody, k: nat)
    requires m.tempo > 0.0 && k <= |m.notes|
    ensures Highlights(StepsUpTo(m, k)) == Indices(k)
  {
    if k > 0 {
      HighlightsUpTo(m, k - 1);
      HighlightsAppend(StepsUpTo(m, k - 1), EntrySteps(m, k - 1));
      var s := EntrySteps(m, k - 1);
      assert Highlights(s[1..][1..][1..]) == [];
      assert Highlights(s[1..][1..]) == [];
      assert Highlights(s[1..]) == [];
      assert Highlights(s) == [Some(k - 1)];
    }
  }

  /**
    `playMelodyWithAnimation`: for each entry publish its index, play it for
    its length at the melody's tempo, and wait that long; finally clear the
    index. The returned steps are what the background task performs.
  */
  method PlayMelodyWithAnimation(m: Melody) returns (steps: seq<PlaybackStep>)
    requires m.tempo > 0.0
    ensures steps == AnimationSteps(m)
    ensures |steps| == 3 * |m.notes| + 1 && steps[|steps| - 1] == Highlight(None)
    ensures forall i :: 0 <= i < |m.notes| ==>
      steps[3 * i] == Highlight(Some(i)) &&
      steps[3 * i + 1] == PlayNote(m.notes[i].note, m.notes[i].octave, BeatDuration(m.tempo) * m.notes[i].duration)
  {
    var beatDuration := 60.0 / m.tempo;
    steps := [];
    for index := 0 to |m.notes|
      invariant steps == StepsUpTo(m, index)
    {
      var entry := m.notes[index];
      var seconds := beatDuration * entry.duration;
      assert EntrySteps(m, index)[0] == Highlight(Some(index));
      assert EntrySteps(m, index)[1] == PlayNote(entry.note, entry.octave, seconds);
      assert EntrySteps(m, index)[2] == Sleep(seconds);
      steps := steps + [Highlight(Some(index)), PlayNote(entry.note, entry.octave, seconds), Sleep(seconds)];
    }
    steps := steps + [Highlight(None)];
    forall i | 0 <= i < |m.notes|
      ensures steps[3 * i] == Highlight(Some(i))
      ensures steps[3 * i + 1] == PlayNote(m.notes[i].note, m.notes[i].octave, BeatDuration(m.tempo) * m.notes[i].duration)
    {
      StepsUpToAt(m, |m.notes|, i);
    }
  }

  /** The melody `playUserMelody` builds from the filled slots: octave 4, half a beat each, tempo 120. */
  function UserMelody(notes: seq<Note>): (m: Melody)
    ensures m.tempo == 120.0 && |m.notes| == |notes|
    ensures forall i :: 0 <= i < |notes| ==> m.notes[i] == TargetEntry(notes[i])
  {
    Melody(seq(|notes|, i requires 0 <= i < |notes| => TargetEntry(notes[i])), 120.0)
  }

  // ---------------------------------------------------------------------
  // The view model

  /** The published and persisted fields of a view model (the slot array by reference). */
  datatype Snapshot = Snapshot(
    currentLevel: GameLevel,
    phase: GamePhase,
    selectedNote: Option<Note>,
    userMelody: array<Option<Note>>,
    correctStreak: nat,
    feedback: seq<bool>,
    isComplete: bool,
    isLevelWon: bool,
    hasListenedToMelody: bool,
    unlockedLevelsData: Option<set<int>>,
    challengeBestStreak: int)

  class GameViewModel {
    var currentLevel: GameLevel
    var phase: GamePhase
    var selectedNote: Option<Note>
    var userMelody: array<Option<Note>>
    var correctStreak: nat
    var feedback: seq<bool>
    var isComplete: bool
    var isLevelWon: bool
    var hasListenedToMelody: bool
    /** The `unlockedLevels` store; `None` when absent or undecodable. */
    var unlockedLevelsData: Option<set<int>>
    var challengeBestStreak: int
    const configuration: LevelConfiguration
    const isChallenge: bool

    /**
      The current round was generated, it has one slot per target note, and
      outside challenge mode it was generated from the view model's own
      configuration.
    */
    ghost predicate Valid()
      reads this
    {
      WellFormedLevel(currentLevel) &&
      userMelody.Length == |currentLevel.targetNotes| &&
      configuration.gridSize >= 0 && configuration.melodyLength >= 0 &&
      (!isChallenge ==> currentLevel.configuration == configuration)
    }

    ghost function Snap(): Snapshot
      reads this
    {
      Snapshot(currentLevel, phase, selectedNote, userMelody, correctStreak, feedback,
               isComplete, isLevelWon, hasListenedToMelody, unlockedLevelsData, challengeBestStreak)
    }

    /** `unlockedLevels`: the decoded store. */
    function UnlockedLevels(): set<int>
      reads this
    {
      DecodeUnlocked(unlockedLevelsData)
    }

    /** `noteGrid`: the pool of the current round, `min(gridSize, 12)` distinct notes. */
    function NoteGrid(): (grid: seq<Note>)
      reads this
      requires Valid()
      ensures |grid| == Min(currentLevel.configuration.gridSize, 12)
      ensures forall i, j :: 0 <= i < j < |grid| ==> grid[i] != grid[j]
      ensures forall i :: 0 <= i < |currentLevel.targetNotes| ==> currentLevel.targetNotes[i] in grid
    {
      currentLevel.availableNotes
    }

    /** `isStreakSufficient`. */
    predicate IsStreakSufficient()
      reads this
    {
      correctStreak >= configuration.streakToWin
    }

    /**
      `init`: the first round is generated from the configuration, with one
      empty slot per melody note, in the listening phase with no streak.
    */
    constructor (configuration: LevelConfiguration, isChallenge: bool,
                 shuffled: seq<Note>, picks: seq<nat>,
                 storedUnlocked: Option<set<int>>, storedBest: int)
      requires configuration.gridSize >= 0 && configuration.melodyLength >= 0
      requires IsNotePermutation(shuffled)
      requires ValidDraws(configuration, picks)
      ensures Valid() && fresh(userMelody)
      ensures this.configuration == configuration && this.isChallenge == isChallenge
      ensures currentLevel == GenerateLevel(configuration, shuffled, picks)
      ensures userMelody[..] == EmptySlots(configuration.melodyLength)
      ensures phase == Listening && selectedNote == None && correctStreak == 0
      ensures feedback == [] && !isComplete && !isLevelWon && !hasListenedToMelody
      ensures unlockedLevelsData == storedUnlocked && challengeBestStreak == storedBest
    {
      this.configuration := configuration;
      this.isChallenge := isChallenge;
      currentLevel := GenerateLevel(configuration, shuffled, picks);
      userMelody := new Option<Note>[configuration.melodyLength](_ => None);
      phase := Listening;
      selectedNote := None;
      correctStreak := 0;
      feedback := [];
      isComplete := false;
      isLevelWon := false;
      hasListenedToMelody := false;
      unlockedLevelsData := storedUnlocked;
      challengeBestStreak := storedBest;
      new;
      assert userMelody[..] == EmptySlots(configuration.melodyLength);
    }

    /**
      `playTargetMelody`: marks the melody as heard at once, whether or not
      playback finishes, and plays the round's melody.
    */
    method PlayTargetMelody() returns (steps: seq<PlaybackStep>)
      requires Valid()
      modifies this
      ensures Valid()
      ensures Snap() == old(Snap()).(hasListenedToMelody := true)
      ensures steps == AnimationSteps(currentLevel.melody)
    {
      hasListenedToMelody := true;
      steps := PlayMelodyWithAnimation(currentLevel.melody);
    }

    /**
      `playUserMelody`: nothing when no slot is filled; otherwise the filled
      notes in slot order, each at octave 4 for a quarter of a second.
    */
    method PlayUserMelody() returns (steps: seq<PlaybackStep>)
      requires Valid()
      ensures Filled(userMelody[..]) == [] ==> steps == []
      ensures Filled(userMelody[..]) != [] ==> |steps| == 3 * |Filled(userMelody[..])| + 1
      ensures Filled(userMelody[..]) != [] ==> steps == AnimationSteps(UserMelody(Filled(userMelody[..])))
      ensures forall i :: 0 <= i < |Filled(userMelody[..])| ==>
        steps[3 * i + 1] == PlayNote(Filled(userMelody[..])[i], 4, 0.25)
    {
      var userNotes := Filled(userMelody[..]);
      if userNotes == [] {
        return [];
      }
      steps := PlayMelodyWithAnimation(UserMelody(userNotes));
    }

    /** `selectNote`: remembers the note and auditions it at octave 4 for 0.3 seconds. */
    method SelectNote(note: Note) returns (audition: PlaybackStep)
      requires Valid()
      modifies this
      ensures Valid()
      ensures Snap() == old(Snap()).(selectedNote := Some(note))
      ensures audition == PlayNote(note, 4, 0.3)
    {
      selectedNote := Some(note);
      audition := PlayNote(note, 4, 0.3);
    }

    /**
      `placeNoteInSlot`: with a note selected, writes it into that one slot;
      without one, does nothing. The index must be a slot (Swift traps
      otherwise).
    */
    method PlaceNoteInSlot(slotIndex: int)
      requires Valid()
      requires 0 <= slotIndex < userMelody.Length
      modifies userMelody
      ensures Valid()
      ensures old(selectedNote).None? ==> userMelody[..] == old(userMelody[..])
      ensures old(selectedNote).Some? ==> userMelody[..] == old(userMelody[..])[slotIndex := selectedNote]
      ensures forall i :: 0 <= i < userMelody.Length && i != slotIndex ==> userMelody[i] == old(userMelody[i])
    {
      if selectedNote.None? {
        return;
      }
      userMelody[slotIndex] := selectedNote;
    }

    /**
      `checkAnswer`, with the corrected guard (see `ReadyAsWritten`): with an
      empty slot nothing changes. Otherwise the feedback is the pointwise
      comparison with the target. A correct answer adds one to the streak;
      outside challenge mode a sufficient streak wins the level, unlocks the
      next one and completes it, returning before the challenge best and the
      result phase; otherwise the challenge best becomes the larger of best
      and streak and the round shows its result. A wrong answer resets the
      streak and shows the result.
    */
    method CheckAnswer()
      requires Valid()
      modifies this
      ensures Valid()
      ensures !Ready(old(userMelody[..])) ==> Snap() == old(Snap())
      ensures Ready(old(userMelody[..])) ==>
        var fb := Feedback(Filled(old(userMelody[..])), old(currentLevel.targetNotes));
        var streak := old(correctStreak) + 1;
        if !AllTrue(fb) then
          Snap() == old(Snap()).(feedback := fb, correctStreak := 0, isComplete := false, phase := Result)
        else if streak >= configuration.streakToWin && !isChallenge then
          Snap() == old(Snap()).(feedback := fb, correctStreak := streak, isComplete := true,
                                 isLevelWon := true, phase := LevelComplete,
                                 unlockedLevelsData := Unlock(old(unlockedLevelsData), configuration.levelNumber))
        else
          Snap() == old(Snap()).(feedback := fb, correctStreak := streak, isComplete := true, phase := Result,
                                 challengeBestStreak :=
                                   if isChallenge && streak > old(challengeBestStreak) then streak
                                   else old(challengeBestStreak))
    {
      var userNotes := Filled(userMelody[..]);
      if |userNotes| != userMelody.Length {
        return;
      }
      feedback := Feedback(userNotes, currentLevel.targetNotes);
      var isCorrect := AllTrue(feedback);
      if isCorrect {
        correctStreak := correctStreak + 1;
        isComplete := true;
        if IsStreakSufficient() && !isChallenge {
          isLevelWon := true;
          UnlockNextLevel();
          phase := LevelComplete;
          return;
        }
        if isChallenge && correctStreak > challengeBestStreak {
          challengeBestStreak := correctStreak;
        }
      } else {
        correctStreak := 0;
        isComplete := false;
      }
      phase := Result;
    }

    /**
      `unlockNextLevel`: adds the next level number to the stored set when
      the catalog has that level; the set only grows.
    */
    method UnlockNextLevel()
      requires Valid()
      modifies this
      ensures Valid()
      ensures Snap() == old(Snap()).(unlockedLevelsData := Unlock(old(unlockedLevelsData), configuration.levelNumber))
      ensures old(UnlockedLevels()) <= UnlockedLevels()
    {
      var nextLevelNumber := configuration.levelNumber + 1;
      if nextLevelNumber <= |AllLevels()| {
        var unlocked := UnlockedLevels();
        unlocked := unlocked + {nextLevelNumber};
        unlockedLevelsData := Some(unlocked);
      }
    }

    /** The configuration the next round is generated from: a fresh challenge length, or the level's own. */
    function NextConfiguration(challengeLength: int): LevelConfiguration
      reads this
      requires isChallenge ==> 4 <= challengeLength <= 7
    {
      if isChallenge then ChallengeMode(challengeLength) else configuration
    }

    /**
      `nextLevel`: a new round with empty slots of the new length, back to
      listening with nothing selected, no feedback and no flags set; the
      streak, the unlocked set and the challenge best are kept.
    */
    method NextLevel(shuffled: seq<Note>, picks: seq<nat>, challengeLength: int)
      requires Valid()
      requires IsNotePermutation(shuffled)
      requires isChallenge ==> 4 <= challengeLength <= 7
      requires ValidDraws(NextConfiguration(challengeLength), picks)
      modifies this
      ensures Valid() && fresh(userMelody)
      ensures currentLevel == GenerateLevel(NextConfiguration(challengeLength), shuffled, picks)
      ensures userMelody[..] == EmptySlots(NextConfiguration(challengeLength).melodyLength)
      ensures Snap() == old(Snap()).(currentLevel := currentLevel, userMelody := userMelody,
                                     phase := Listening, selectedNote := None, feedback := [],
                                     isComplete := false, isLevelWon := false, hasListenedToMelody := false)
    {
      var cfg := NextConfiguration(challengeLength);
      currentLevel := GenerateLevel(cfg, shuffled, picks);
      userMelody := new Option<Note>[cfg.melodyLength](_ => None);
      phase := Listening;
      selectedNote := None;
      feedback := [];
      isComplete := false;
      isLevelWon := false;
      hasListenedToMelody := false;
    }

    /** `startPlaying`: enters the playing phase whether or not the melody was heard. */
    method StartPlaying()
      requires Valid()
      modifies this
      ensures Valid()
      ensures Snap() == old(Snap()).(phase := Playing)
    {
      phase := Playing;
    }
  }
}
