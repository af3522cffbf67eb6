/**
  The level catalog and the generation of one round
  (music/models/LevelConfiguration.swift).

  The source draws its randomness from `shuffled()`, `randomElement()` and
  `Int.random(in:)`; here each draw is a parameter: a permutation of the
  twelve notes for the shuffle, one index into the note pool per melody
  note, and the challenge melody length.
*/
module Levels {
  import opened MusicTheory

  /** Swift's `Int.max` on a 64-bit platform. */
  const IntMax: int := 0x7FFF_FFFF_FFFF_FFFF

  /**
    One difficulty setting: how many notes the player may choose from, how
    long the target melody is, the 1-based level number and the streak of
    correct rounds that wins the level.
  */
  datatype LevelConfiguration = LevelConfiguration(
    gridSize: int,
    melodyLength: int,
    levelNumber: int,
    streakToWin: int)

  /** The states of one round. */
  datatype GamePhase = Listening | Playing | Result | LevelComplete

  /** A catalog entry; every catalog level is won with a streak of five. */
  function Level(gridSize: int, melodyLength: int, levelNumber: int): LevelConfiguration
  {
    LevelConfiguration(gridSize, melodyLength, levelNumber, 5)
  }

  /** Strictly easier: a smaller grid, or the same grid and a shorter melody. */
  predicate Easier(x: LevelConfiguration, y: LevelConfiguration)
  {
    x.gridSize < y.gridSize || (x.gridSize == y.gridSize && x.melodyLength < y.melodyLength)
  }

  /**
    `LevelConfiguration.allLevels`: 21 levels numbered 1 to 21, each won with
    a streak of five, each melody at least two notes long and no longer than
    its grid, no grid larger than the 3x3 note pad, and each level strictly
    harder than the one before it.
  */
  function AllLevels(): (levels: seq<LevelConfiguration>)
    ensures |levels| == 21
    ensures forall i :: 0 <= i < |levels| ==> levels[i].levelNumber == i + 1 && levels[i].streakToWin == 5
    ensures forall i :: 0 <= i < |levels| ==> 2 <= levels[i].melodyLength <= levels[i].gridSize <= 9
    ensures forall i :: 0 < i < |levels| ==> Easier(levels[i - 1], levels[i])
  {
    [ Level(2, 2, 1),
      Level(3, 2, 2), Level(3, 3, 3),
      Level(4, 2, 4), Level(4, 3, 5), Level(4, 4, 6),
      Level(5, 3, 7), Level(5, 4, 8), Level(5, 5, 9),
      Level(6, 3, 10), Level(6, 4, 11), Level(6, 5, 12), Level(6, 6, 13),
      Level(7, 4, 14), Level(7, 5, 15), Level(7, 6, 16),
      Level(8, 5, 17), Level(8, 6, 18),
      Level(9, 5, 19), Level(9, 6, 20), Level(9, 7, 21) ]
  }

  /** Difficulty rises strictly across the whole catalog, not only between neighbours. */
  lemma {:induction false} CatalogStrictlyOrdered(i: nat, j: nat)
    requires i < j < |AllLevels()|
    ensures Easier(AllLevels()[i], AllLevels()[j])
    decreases j - i
  {
    if i + 1 < j {
      CatalogStrictlyOrdered(i, j - 1);
    }
  }

  /** The catalog entry with a given level number, found by position. */
  lemma CatalogLookup(n: int)
    requires 1 <= n <= |AllLevels()|
    ensures AllLevels()[n - 1].levelNumber == n
  {
  }

  /**
    `LevelConfiguration.challengeMode`: the full 3x3 grid, a melody length
    drawn from 4...7, the level number -1 (no catalog level) and a streak
    target no counter reaches.
  */
  function ChallengeMode(melodyLength: int): (c: LevelConfiguration)
    requires 4 <= melodyLength <= 7
    ensures c.gridSize == 9 && c.melodyLength == melodyLength
    ensures forall i :: 0 <= i < |AllLevels()| ==> AllLevels()[i].levelNumber != c.levelNumber
    ensures c.streakToWin == IntMax
  {
    LevelConfiguration(9, melodyLength, -1, IntMax)
  }

  /** A reordering of the twelve notes: twelve entries, no note twice. */
  predicate IsNotePermutation(s: seq<Note>)
  {
    |s| == 12 && forall i, j :: 0 <= i < j < |s| ==> s[i] != s[j]
  }

  function Min(a: int, b: int): int
  {
    if a <= b then a else b
  }

  /**
    `randomizedNotes`: the first `gridSize` notes of a shuffle of the
    chromatic scale (all twelve when the grid is larger). Swift's `prefix`
    rejects a negative length.
  */
  function RandomizedNotes(config: LevelConfiguration, shuffled: seq<Note>): (pool: seq<Note>)
    requires config.gridSize >= 0
    requires IsNotePermutation(shuffled)
    ensures |pool| == Min(config.gridSize, 12)
    ensures pool == shuffled[..|pool|]
    ensures forall i, j :: 0 <= i < j < |pool| ==> pool[i] != pool[j]
  {
    shuffled[..Min(config.gridSize, 12)]
  }

  /**
    The random draws of one round are usable: one index per melody note,
    each inside the pool. With an empty pool no index is inside it, which is
    the source's `randomElement()!` trapping.
  */
  predicate ValidDraws(config: LevelConfiguration, picks: seq<nat>)
  {
    |picks| == config.melodyLength &&
    forall i :: 0 <= i < |picks| ==> picks[i] < Min(config.gridSize, 12)
  }

  /** One round: the melody to play, its notes, the configuration and the note pool. */
  datatype GameLevel = GameLevel(
    melody: Melody,
    targetNotes: seq<Note>,
    configuration: LevelConfiguration,
    availableNotes: seq<Note>)

  /** The fixed shape of every generated melody entry: octave 4, half a beat. */
  function TargetEntry(n: Note): MelodyNote
  {
    MelodyNote(n, 4, 0.5)
  }

  /**
    What every generated round satisfies: a pool of `min(gridSize, 12)`
    distinct notes, `melodyLength` target notes all taken from the pool, and
    a melody that plays exactly the target notes at tempo 120.
  */
  ghost predicate WellFormedLevel(level: GameLevel)
  {
    var cfg := level.configuration;
    cfg.gridSize >= 0 && cfg.melodyLength >= 0 &&
    |level.availableNotes| == Min(cfg.gridSize, 12) &&
    (forall i, j :: 0 <= i < j < |level.availableNotes| ==> level.availableNotes[i] != level.availableNotes[j]) &&
    |level.targetNotes| == cfg.melodyLength &&
    (forall i :: 0 <= i < |level.targetNotes| ==> level.targetNotes[i] in level.availableNotes) &&
    level.melody.tempo == 120.0 &&
    |level.melody.notes| == |level.targetNotes| &&
    forall i :: 0 <= i < |level.targetNotes| ==> level.melody.notes[i] == TargetEntry(level.targetNotes[i])
  }

  /**
    `GameLevel.generateLevel`: the pool is a shuffle's prefix and the target
    melody takes, for each position, the pool note the draw points at.
  */
  function GenerateLevel(config: LevelConfiguration, shuffled: seq<Note>, picks: seq<nat>): (level: GameLevel)
    requires config.gridSize >= 0 && config.melodyLength >= 0
    requires IsNotePermutation(shuffled)
    requires ValidDraws(config, picks)
    ensures WellFormedLevel(level)
    ensures level.configuration == config
    ensures level.availableNotes == shuffled[..Min(config.gridSize, 12)]
    ensures |level.targetNotes| == config.melodyLength
    ensures forall i :: 0 <= i < |level.targetNotes| ==> level.targetNotes[i] in level.availableNotes
  {
    var pool := RandomizedNotes(config, shuffled);
    var selected := seq(config.melodyLength, i requires 0 <= i < config.melodyLength => pool[picks[i]]);
    var melody := Melody(seq(|selected|, i requires 0 <= i < |selected| => TargetEntry(selected[i])), 120.0);
    GameLevel(melody, selected, config, pool)
  }

  /** A round cannot be generated when melody notes are wanted and the grid is empty. */
  lemma EmptyGridHasNoDraws(config: LevelConfiguration, picks: seq<nat>)
    requires config.gridSize == 0 && config.melodyLength > 0
    ensures !ValidDraws(config, picks)
  {
    if |picks| == config.melodyLength {
      assert !(picks[0] < Min(config.gridSize, 12));
    }
  }

  /** A generated melody lasts half a beat per note. */
  lemma GeneratedDuration(config: LevelConfiguration, shuffled: seq<Note>, picks: seq<nat>)
    requires config.gridSize >= 0 && config.melodyLength >= 0
    requires IsNotePermutation(shuffled)
    requires ValidDraws(config, picks)
    ensures TotalDuration(GenerateLevel(config, shuffled, picks).melody) == config.melodyLength as real * 0.5
  {
    var m := GenerateLevel(config, shuffled, picks).melody;
    UniformTotalDuration(m, 0.5);
  }

  /** Every catalog level and every challenge round can be generated, and its melody fits its grid. */
  lemma CatalogLevelsGenerate(config: LevelConfiguration)
    requires config in AllLevels() || exists l :: 4 <= l <= 7 && config == ChallengeMode(l)
    ensures 1 <= config.melodyLength <= config.gridSize <= 9
  {
  }
}
