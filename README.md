# PlayNotePlay game logic in Dafny

A Dafny model of the game and music-theory logic of the PlayNotePlay
ear-training game. The player hears a short generated melody and rebuilds
it note by note on a grid of note buttons. Correct rounds build a streak.
A streak of five wins a catalog level and unlocks the next one. Challenge
mode is endless and records the best streak. A second game, the chord quiz,
plays a chord and asks for its name among four options.

The model has five modules:

- `MusicTheory` (`music_theory.dfy`, from `music/app.swift`): the twelve
  notes in chromatic order and their labels. It gives the integer semitone
  offset from A4 that fixes a note's frequency, the chord types and their
  intervals, a chord's notes and display name, and a melody's total length
  in beats.
- `Levels` (`levels.dfy`, from `music/models/LevelConfiguration.swift`):
  the 21-level catalog, the challenge configuration, the round phases and
  the generation of one round. The random pool is the prefix of a shuffle
  and the target melody is drawn from that pool.
- `Game` (`game.dfy`, from `music/models/GameViewModel.swift`): the view
  model as a class. The answer slots are an array written in place. The
  module also holds the pure functions the class is specified by: filled
  slots, feedback, the unlocked-level store and the steps of a melody
  playback. `music/views/StreakGameView.swift:11-170` holds an identical
  copy of this class, so one model covers both files.
- `ChordQuiz` (`chord_quiz.dfy`, from `music/models/ChordMatchGame.swift`):
  the quiz as a class. Its option-building loop and the final shuffle are
  methods with loop invariants.
- `GameScenarios` (`scenarios.dfy`): whole games played against the view
  model's contracts. Five correct rounds win level 1 and unlock level 2. In
  challenge mode a miss resets the streak and keeps the best.

Randomness is passed in as parameters:

- `shuffled()` becomes a permutation of the twelve notes, or the offsets of
  Swift's forward Fisher-Yates pass.
- `randomElement()` becomes an index into the pool, or a stream of
  (root, type) draws.
- `Int.random(in:)` becomes an integer in the stated range.

Sound output is what the model asks the sound service to do: a sequence of
`PlaybackStep`s (highlight an index, play a note for some seconds, sleep).
The persisted values (`@AppStorage`) are fields set from what the store
held when the view model was created. An unlocked-level store that is
absent or cannot be decoded is `None`, and it reads as `{1}`.

## Model

| member | source | states |
|---|---|---|
| MusicTheory.AllNotes | music/app.swift:7-9 | the case list has 12 entries and A is at index 9 |
| MusicTheory.Index | music/app.swift:12 | a note's position is below 12, and looking that position up gives the note back |
| MusicTheory.NoteAt | music/app.swift:56 | the note at position i < 12 has index i |
| MusicTheory.AllNotesDistinct | music/app.swift:7-9 | the 12 cases are pairwise distinct |
| MusicTheory.NoteName | music/app.swift:8-9 | every raw value has 1 or 2 characters and no space |
| MusicTheory.NoteNameInjective | music/app.swift:8-9 | different notes have different raw values |
| MusicTheory.TypeNameInjective | music/app.swift:26-32 | different chord types have different raw values |
| MusicTheory.SemitonesInOctaveFour | music/app.swift:11-16 | in octave 4 the offset from A4 is `index - 9`, lies in -9..2, and is 0 exactly for A (440 Hz) |
| MusicTheory.OctaveIsTwelveSemitones | music/app.swift:18-22 | one octave up adds 12 semitones, so the frequency doubles |
| MusicTheory.SemitonesInjective | music/app.swift:11-22 | different (note, octave) pairs have different pitches |
| MusicTheory.Intervals | music/app.swift:34-44 | every interval list starts at 0, rises strictly and stays below 12; triads have 3 intervals and seventh chords 4 |
| MusicTheory.ChordNotes | music/app.swift:52-58 | one note per interval; note i has index `(rootIndex + intervals[i]) % 12`; the first note is the root |
| MusicTheory.ChordNotesDistinct | music/app.swift:52-58 | a chord's notes are pairwise distinct |
| MusicTheory.DisplayNameInjective | music/app.swift:66-68 | two chords have the same display name if and only if they have the same root and type; the octave is ignored |
| MusicTheory.BeatSumAppend | music/app.swift:75-77 | the total length of a concatenation is the sum of the two totals |
| MusicTheory.UniformTotalDuration | music/app.swift:75-77 | a melody whose entries are all d beats long lasts `count * d` beats; the tempo is not applied |
| MusicTheory.TotalDurationNonNegative | music/app.swift:75-77 | with no negative entry, the total is not negative |
| Levels.AllLevels | music/models/LevelConfiguration.swift:47-110 | 21 levels; level i+1 at position i; each needs a streak of 5; `2 <= melodyLength <= gridSize <= 9`; each entry is harder than the one before |
| Levels.CatalogStrictlyOrdered | music/models/LevelConfiguration.swift:47-110 | for any i < j, entry i is strictly easier than entry j in (gridSize, melodyLength) order |
| Levels.CatalogLookup | music/models/LevelConfiguration.swift:47-110 | level number n is found at position n - 1 |
| Levels.ChallengeMode | music/models/LevelConfiguration.swift:119-125 | grid 9, the drawn length from 4...7, a level number that no catalog level has, streak target `Int.max` |
| Levels.RandomizedNotes | music/models/LevelConfiguration.swift:113-116 | a prefix of the shuffle, of length `min(gridSize, 12)`, with pairwise distinct notes |
| Levels.GenerateLevel | music/models/LevelConfiguration.swift:17-29 | the pool is the shuffle's prefix; there are `melodyLength` targets, each in the pool; melody entry i is (target i, octave 4, 0.5 beats) at tempo 120 |
| Levels.EmptyGridHasNoDraws | music/models/LevelConfiguration.swift:22-24 | with an empty grid and a non-empty melody no draw is possible (`randomElement()!` traps) |
| Levels.GeneratedDuration | music/models/LevelConfiguration.swift:25-26 | a generated melody lasts `0.5 * melodyLength` beats |
| Levels.CatalogLevelsGenerate | music/models/LevelConfiguration.swift:47-125 | every catalog and challenge configuration has `1 <= melodyLength <= gridSize <= 9`, so its round can be generated and fits the 3x3 note pad |
| Game.FilledComplete | music/models/GameViewModel.swift:102-103 | the filled notes number as many as the slots exactly when no slot is empty, and then they are the slots' contents in order |
| Game.FilledOfNotes | music/models/GameViewModel.swift:102 | slots holding given notes are complete, and `compactMap` gives the notes back |
| Game.Ready | music/models/GameViewModel.swift:101-103 | corrected guard (see Findings): an answer is submitted exactly when no slot is empty |
| Game.ReadyAgreesWithSource | music/models/GameViewModel.swift:101-103 | when the slot count equals the configured length, the corrected guard and the guard as written agree |
| Game.ChallengeRoundCannotBeSubmitted | music/models/GameViewModel.swift:101-103 | the guard as written rejects a fully filled 5-slot answer when the configured length is 4 |
| Game.Feedback | music/models/GameViewModel.swift:105 | the feedback is as long as the shorter sequence, and entry i is true exactly when the i-th notes agree |
| Game.FeedbackAllTrueIff | music/models/GameViewModel.swift:105-106 | for an answer as long as the target, all feedback is true if and only if the answer equals the target |
| Game.DecodeUnlocked | music/models/GameViewModel.swift:32-39 | an absent or undecodable store reads as `{1}` |
| Game.Unlock | music/models/GameViewModel.swift:132-139 | the decoded set gains `levelNumber + 1` when that is at most 21 and is otherwise unchanged |
| Game.UnlockOnlyGrows | music/models/GameViewModel.swift:132-139 | unlocking never removes a level |
| Game.UnlockNextCatalogLevel | music/models/GameViewModel.swift:132-139 | winning catalog level i unlocks level i+1; the last level leaves the store untouched |
| Game.StepsUpToAt | music/models/GameViewModel.swift:71-89 | step 3i highlights entry i, step 3i+1 plays it for `60 / tempo * beats` seconds, and step 3i+2 sleeps that long |
| Game.HighlightTrace | music/views/StreakGameView.swift:70-88 | the published `playingNoteIndex` values are 0, 1, ..., n-1 and then nil |
| Game.PlayMelodyWithAnimation | music/models/GameViewModel.swift:71-89 | the loop's steps are the playback specification: 3 steps per entry and a final cleared highlight; entry i is highlighted, then played at its octave for its length at the tempo |
| Game.UserMelody | music/models/GameViewModel.swift:66-67 | one entry per note, each (note, octave 4, 0.5 beats), at tempo 120 |
| Game.GameViewModel.NoteGrid | music/views/StreakGameView.swift:40-42 | the grid is the round's pool: `min(gridSize, 12)` distinct notes containing every target note |
| Game.GameViewModel.constructor | music/models/GameViewModel.swift:49-55 | a generated first round; `melodyLength` empty slots; listening phase; nothing selected; streak 0; no feedback or flags; the stored values as read |
| Game.GameViewModel.PlayTargetMelody | music/views/StreakGameView.swift:56-59 | sets `hasListenedToMelody` as soon as it is called and changes nothing else; asks for the round melody's playback steps |
| Game.GameViewModel.PlayUserMelody | music/views/StreakGameView.swift:61-68 | with no filled slot it asks for nothing; otherwise it plays the filled notes in slot order, each at octave 4 for 0.25 s (0.5 beats at 120 bpm) |
| Game.GameViewModel.SelectNote | music/models/GameViewModel.swift:91-94 | only `selectedNote` changes; the note is auditioned at octave 4 for 0.3 s |
| Game.GameViewModel.PlaceNoteInSlot | music/models/GameViewModel.swift:96-99 | with no note selected nothing changes; otherwise only slot i takes the selected note and every other slot is unchanged |
| Game.GameViewModel.CheckAnswer | music/models/GameViewModel.swift:101-130 | with an empty slot nothing changes. Otherwise the feedback is pointwise. Correct: streak + 1 and `isComplete`; with `streak >= streakToWin` outside challenge mode it also wins, unlocks and sets `.levelComplete`, and neither the best nor `.result` is touched; else `.result`, and the challenge best becomes max(best, streak). Wrong: streak 0, `isComplete` false, `.result`, best unchanged |
| Game.GameViewModel.UnlockNextLevel | music/models/GameViewModel.swift:132-139 | only the store changes: it becomes `Unlock(store, levelNumber)`, and the decoded set only grows |
| Game.GameViewModel.NextLevel | music/models/GameViewModel.swift:141-164 | a new round from the level's configuration, or from a fresh challenge length; fresh all-empty slots of the new length; listening phase; no selection, feedback or flags; streak, store and best unchanged |
| Game.GameViewModel.StartPlaying | music/views/StreakGameView.swift:165-167 | enters `.playing` without checking `hasListenedToMelody`; nothing else changes |
| GameScenarios.AnswerCorrectly | music/models/GameViewModel.swift:91-99 | selecting and placing each target note in turn fills the slots with exactly the target |
| GameScenarios.PlayCorrectRound | music/models/GameViewModel.swift:101-130 | a correctly answered round adds one to the streak and either completes the level and unlocks, or shows the result and raises the challenge best |
| GameScenarios.FiveCorrectRoundsWinLevelOne | music/models/GameViewModel.swift:101-139 | five correct rounds of level 1, starting from an empty store, end in `.levelComplete` with streak 5 and unlocked set `{1, 2}` |
| GameScenarios.ChallengeMissKeepsBest | music/models/GameViewModel.swift:120-129 | three correct challenge rounds and then a miss: streak 0, `.result`, best = max(stored best, 3) |
| ChordQuiz.AddKeeps | music/models/ChordMatchGame.swift:47-49 | one loop step keeps names distinct, keeps the existing options and adds at most the candidate |
| ChordQuiz.CollectKeeps | music/models/ChordMatchGame.swift:39-50 | the loop only appends, stops at 4, keeps names pairwise distinct and uses only the correct chord's octave |
| ChordQuiz.GenerateOptions | music/models/ChordMatchGame.swift:38-53 | exactly 4 options that include the correct chord, have pairwise distinct display names and share its octave, and are a permutation of what the loop collected |
| ChordQuiz.Shuffled | music/models/ChordMatchGame.swift:52 | the shuffle returns a permutation of the 4 options, with names still distinct |
| ChordQuiz.ChordMatchGame.constructor | music/models/ChordMatchGame.swift:16-23 | no current chord, no options, score 0, answer hidden |
| ChordQuiz.ChordMatchGame.StartNewRound | music/models/ChordMatchGame.swift:25-36 | the drawn chord becomes current with octave 3...5; its 4 options contain it, have distinct names and share its octave; the answer is hidden; the score is kept |
| ChordQuiz.ChordMatchGame.SelectChord | music/models/ChordMatchGame.swift:55-62 | with no current chord nothing changes; otherwise the score rises by 1 exactly when root and type match (the names compare equal), and the answer is shown |

## Findings

| source | as written | input that shows it | evidently intended | confidence | as-written member | corrected member |
|---|---|---|---|---|---|---|
| music/models/GameViewModel.swift:101-103 | `checkAnswer` proceeds only when the number of filled slots equals `configuration.melodyLength`. In challenge mode that is the length drawn when the view model was created. `nextLevel` (lines 141-152) resizes the slots to a newly drawn length from 4...7 | a challenge game created with melody length 4 whose next round draws length 5: the player fills all 5 slots and submits, the guard sees 5 ≠ 4, and the answer is silently ignored in every later attempt of that round | submit whenever every slot of the current round is filled, which is the condition the submit button already checks (`!userMelody.contains(nil)`) | high; not executed | Game.ChallengeRoundCannotBeSubmitted | Game.Ready |

`Game.GameViewModel.CheckAnswer` uses the corrected guard `Game.Ready`.
`Game.ReadyAgreesWithSource` shows that outside challenge mode, where the
slot count always equals the configured length, this is exactly the
source's behaviour.

## Left out

- `music/AudioEngine.swift` and `music/SoundService.swift` are not part of this model: tone synthesis is floating-point sample generation, and voice bookkeeping is concurrency over AVFoundation nodes and dispatch queues.
- `Note.frequency`, `Note.frequency(octave:)` and `Chord.frequencies` use `pow` on doubles; the model keeps only the integer semitone offset that determines them (`SemitonesFromA4`).
- `ChordMatchGame.playCurrentChord` and `playOption` only forward a chord to the sound service; they are not modelled.
- The `playingNoteIndex` field is written by a detached `Task`. The model returns the steps that task performs, with the published indices as `Highlight` steps, instead of updating the field. Overlapping playbacks and their interleaving are not modelled. Neither is the timing of `Task.sleep`, whose cancellation error `try?` swallows.
- Game.PlayMelodyWithAnimation: requires a positive tempo. Every caller uses 120, and with a zero tempo the sleep's conversion of an infinite or NaN duration to `UInt64` traps.
- The JSON encoding of `unlockedLevels` in `@AppStorage` is modelled as a stored `Option<set<int>>`. Only the decode-failure default `{1}` is kept. The store is shared with other screens, and that sharing is not modelled.
- `LevelConfiguration.availableNotes` is always `[]` and never read; the field is omitted.
- `correctStreak` and `score` are unbounded naturals. Swift's `Int` would trap on overflow at `Int.max`, which no game reaches.
- `LevelConfiguration.challengeMode` is a `static let`, so its melody length is drawn once per app run. `Levels.ChallengeMode` takes that draw as a parameter.
- ChordQuiz.GenerateOptions: requires a stream of draws long enough for the loop to collect four names. The source keeps drawing until it has them, which ends with probability 1.
- The SwiftUI views are not modelled: the `StreakGameView` structs after line 170, `MockSoundService`, menus, level cards, help, onboarding and permission screens. Neither are the view one-liners `highestUnlockedLevel` and `isUnlocked`.
- `music/vv.swift` (analytics, ads, push notifications, networking) is not part of this model.
