/**
  The chord recognition quiz (music/models/ChordMatchGame.swift): a random
  chord is played and the player picks its name among four options.

  The random draws are parameters: the round's root, type and octave, the
  stream of (root, type) candidates the option loop draws from, and the
  random offsets of Swift's `shuffled()` (a forward Fisher-Yates pass).
*/
module ChordQuiz {
  import opened Wrappers
  import opened MusicTheory

  /** One random candidate: `Note.allCases.randomElement()!` and `ChordType.allCases.randomElement()!`. */
  datatype Draw = Draw(root: Note, chordType: ChordType)

  /** `opts.contains(where: { $0.displayName == candidate.displayName })`. */
  predicate HasName(opts: seq<Chord>, c: Chord)
  {
    exists o :: o in opts && DisplayName(o) == DisplayName(c)
  }

  /** No two options share a display name. */
  predicate DistinctNames(opts: seq<Chord>)
  {
    forall i, j :: 0 <= i < |opts| && 0 <= j < |opts| && i != j ==> DisplayName(opts[i]) != DisplayName(opts[j])
  }

  /**
    What the option loop makes of a stream of draws: each draw becomes a
    chord at the given octave and is appended unless its name is already
    taken, until there are four options or the stream ends.
  */
  function Collect(opts: seq<Chord>, draws: seq<Draw>, octave: int): seq<Chord>
    decreases |draws|
  {
    if |opts| >= 4 || draws == [] then opts
    else
      Collect(Add(opts, Chord(draws[0].root, draws[0].chordType, octave)), draws[1..], octave)
  }

  /** One pass of the loop body: append the candidate unless its name is taken. */
  function Add(opts: seq<Chord>, candidate: Chord): seq<Chord>
  {
    if HasName(opts, candidate) then opts else opts + [candidate]
  }

  /** Adding keeps the names distinct, keeps what was there and grows by at most one. */
  lemma AddKeeps(opts: seq<Chord>, candidate: Chord)
    requires DistinctNames(opts)
    ensures var r := Add(opts, candidate);
      DistinctNames(r) && r[..|opts|] == opts && |opts| <= |r| <= |opts| + 1 &&
      forall o :: o in r ==> o in opts || o == candidate
  {
    if !HasName(opts, candidate) {
      var next := opts + [candidate];
      forall i | 0 <= i < |opts|
        ensures DisplayName(next[i]) != DisplayName(candidate)
      {
        assert next[i] in opts;
      }
    }
  }

  /**
    The loop only appends, never past four options, only chords at the
    given octave, and never a name already present.
  */
  lemma {:induction false} CollectKeeps(opts: seq<Chord>, draws: seq<Draw>, octave: int)
    requires |opts| <= 4 && DistinctNames(opts)
    requires forall o :: o in opts ==> o.octave == octave
    ensures var r := Collect(opts, draws, octave);
      |opts| <= |r| <= 4 && r[..|opts|] == opts && DistinctNames(r) &&
      forall o :: o in r ==> o.octave == octave
    decreases |draws|
  {
    if |opts| < 4 && draws != [] {
      var candidate := Chord(draws[0].root, draws[0].chordType, octave);
      var next := Add(opts, candidate);
      AddKeeps(opts, candidate);
      CollectKeeps(next, draws[1..], octave);
      assert Collect(next, draws[1..], octave)[..|opts|] == Collect(next, draws[1..], octave)[..|next|][..|opts|];
    }
  }

  /** The random offsets of a Fisher-Yates pass over four options: step i swaps i with i + offset. */
  predicate ValidShuffle(offsets: seq<nat>)
  {
    |offsets| == 3 && forall i :: 0 <= i < 3 ==> offsets[i] < 4 - i
  }

  /**
    `generateOptions`: starting from the correct chord, appends draws with
    new names at the correct chord's octave until there are four, then
    shuffles them. The stream of draws must be long enough for the loop to
    finish (the source keeps drawing until it does).
  */
  method GenerateOptions(correct: Chord, draws: seq<Draw>, offsets: seq<nat>) returns (options: seq<Chord>)
    requires |Collect([correct], draws, correct.octave)| == 4
    requires ValidShuffle(offsets)
    ensures |options| == 4
    ensures correct in options
    ensures DistinctNames(options)
    ensures forall o :: o in options ==> o.octave == correct.octave
    ensures multiset(options) == multiset(Collect([correct], draws, correct.octave))
  {
    CollectKeeps([correct], draws, correct.octave);
    var opts := [correct];
    var k := 0;
    while |opts| < 4
      invariant 0 <= k <= |draws|
      invariant 1 <= |opts| <= 4 && opts[0] == correct && DistinctNames(opts)
      invariant forall o :: o in opts ==> o.octave == correct.octave
      invariant Collect(opts, draws[k..], correct.octave) == Collect([correct], draws, correct.octave)
      decreases |draws| - k
    {
      if k == |draws| {
        assert false;
      }
      var d := draws[k];
      var candidate := Chord(d.root, d.chordType, correct.octave);
      assert draws[k..][1..] == draws[k + 1..];
      AddKeeps(opts, candidate);
      if !HasName(opts, candidate) {
        opts := opts + [candidate];
      }
      k := k + 1;
    }
    assert opts == Collect([correct], draws, correct.octave);
    options := Shuffled(opts, offsets);
    assert correct in multiset(opts);
    forall o | o in options
      ensures o.octave == correct.octave
    {
      assert o in multiset(options);
    }
  }

  /**
    Swift's `shuffled()` on four options: for each position i from the
    first, swap it with the position `offsets[i]` further on. The result is
    a permutation of the input.
  */
  method Shuffled(opts: seq<Chord>, offsets: seq<nat>) returns (r: seq<Chord>)
    requires |opts| == 4 && DistinctNames(opts)
    requires ValidShuffle(offsets)
    ensures |r| == 4 && DistinctNames(r)
    ensures multiset(r) == multiset(opts)
  {
    r := opts;
    for i := 0 to 3
      invariant |r| == 4 && DistinctNames(r)
      invariant multiset(r) == multiset(opts)
    {
      var j := i + offsets[i];
      var tmp := r[i];
      r := r[i := r[j]][j := tmp];
    }
  }

  class ChordMatchGame {
    var currentChord: Option<Chord>
    var options: seq<Chord>
    var score: nat
    var isShowingAnswer: bool

    /** A new game: no chord yet, no options, no score. */
    constructor ()
      ensures currentChord == None && options == [] && score == 0 && !isShowingAnswer
    {
      currentChord := None;
      options := [];
      score := 0;
      isShowingAnswer := false;
    }

    /**
      `startNewRound`: the drawn chord becomes current, with an octave from
      3...5, its four options are generated and the answer is hidden; the
      score is kept.
    */
    method StartNewRound(root: Note, chordType: ChordType, octave: int, draws: seq<Draw>, offsets: seq<nat>)
      requires 3 <= octave <= 5
      requires |Collect([Chord(root, chordType, octave)], draws, octave)| == 4
      requires ValidShuffle(offsets)
      modifies this
      ensures currentChord == Some(Chord(root, chordType, octave))
      ensures |options| == 4 && Chord(root, chordType, octave) in options && DistinctNames(options)
      ensures forall o :: o in options ==> o.octave == octave
      ensures multiset(options) == multiset(Collect([Chord(root, chordType, octave)], draws, octave))
      ensures !isShowingAnswer && score == old(score)
    {
      currentChord := Some(Chord(root, chordType, octave));
      options := GenerateOptions(currentChord.value, draws, offsets);
      isShowingAnswer := false;
    }

    /**
      `selectChord`: without a current chord nothing happens. Otherwise the
      score goes up by one exactly when the chosen chord has the current
      chord's root and type (its name matches; the octave is not compared),
      and the answer is shown.
    */
    method SelectChord(chord: Chord)
      modifies this
      ensures old(currentChord).None? ==>
        currentChord == old(currentChord) && options == old(options) &&
        score == old(score) && isShowingAnswer == old(isShowingAnswer)
      ensures old(currentChord).Some? ==>
        var current := old(currentChord).value;
        score == old(score) + (if chord.root == current.root && chord.chordType == current.chordType then 1 else 0) &&
        isShowingAnswer && currentChord == old(currentChord) && options == old(options)
    {
      if currentChord.None? {
        return;
      }
      DisplayNameInjective(chord, currentChord.value);
      if DisplayName(chord) == DisplayName(currentChord.value) {
        score := score + 1;
      }
      isShowingAnswer := true;
    }
  }
}
