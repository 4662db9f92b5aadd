/**
  Chord patterns and the song (`Synth.Pattern`, `Synth.Song`): six signed
  midi keys and a list of gestures, each selecting one string by its signed
  one-based number at a beat offset and a strum sub-step.
 */
module Patterns {

  /** A gesture: `key == s` plucks string `s`, `key == -s` damps it. */
  datatype Gesture = Gesture(key: int, beat: real, no: int)

  /** `keys[i]` is the midi key of string `i`; 0 leaves it silent and a
      negative key plucks `|key|` with the string damped. */
  datatype Pattern = Pattern(keys: seq<int>, duration: real, strum: seq<Gesture>)

  datatype Song = Song(bpm: int, patterns: seq<Pattern>)

  const NumStrings: nat := 6
  /** Every default pattern lasts two beats. */
  const PatternBeats: real := 2.0
  /** How far before the downbeat (in beats) `all_damp` mutes the strings. */
  const PreDampBeats: real := 0.0001

  /** `simple_strum(beat, offset)`: strings 1 to 6 in order, string `j + 1`
      sounding `j * offset` strum steps after the beat. */
  function SimpleStrum(beat: real, offset: int): (r: seq<Gesture>)
    ensures |r| == NumStrings
    ensures forall j :: 0 <= j < NumStrings ==> r[j] == Gesture(j + 1, beat, j * offset)
  {
    [Gesture(1, beat, 0 * offset),
     Gesture(2, beat, 1 * offset),
     Gesture(3, beat, 2 * offset),
     Gesture(4, beat, 3 * offset),
     Gesture(5, beat, 4 * offset),
     Gesture(6, beat, 5 * offset)]
  }

  /** `all_damp(beat)`: a damp of every string a hair before the beat. */
  function AllDamp(beat: real): (r: seq<Gesture>)
    ensures |r| == NumStrings
    ensures forall j :: 0 <= j < NumStrings ==> r[j] == Gesture(-(j + 1), beat - PreDampBeats, 0)
  {
    var b := beat - PreDampBeats;
    [Gesture(-1, b, 0),
     Gesture(-2, b, 0),
     Gesture(-3, b, 0),
     Gesture(-4, b, 0),
     Gesture(-5, b, 0),
     Gesture(-6, b, 0)]
  }

  /** The gesture list of every pattern: damp all strings, then strum. */
  function DefaultStrum(): (r: seq<Gesture>)
    ensures |r| == 2 * NumStrings
    ensures r[..NumStrings] == AllDamp(0.0) && r[NumStrings..] == SimpleStrum(0.0, 1)
  {
    AllDamp(0.0) + SimpleStrum(0.0, 1)
  }

  /** The default list gesture by gesture: first the mute of every string
      just before the beat, then the strum of string `j` at step `j`. */
  lemma DefaultStrumGestures(j: nat)
    requires j < NumStrings
    ensures DefaultStrum()[j] == Gesture(-(j + 1), 0.0 - PreDampBeats, 0)
    ensures DefaultStrum()[NumStrings + j] == Gesture(j + 1, 0.0, j)
  {
    var r := DefaultStrum();
    assert r[j] == r[..NumStrings][j];
    assert r[NumStrings + j] == r[NumStrings..][j];
  }

  /** `new Synth.Pattern(keys)`. */
  function NewPattern(keys: seq<int>): (p: Pattern)
    ensures p.keys == keys && p.duration == PatternBeats && p.strum == DefaultStrum()
  {
    Pattern(keys, PatternBeats, DefaultStrum())
  }

  /** The four chords of the built-in song: G, Em, C, D7. */
  function DefaultSong(): (s: Song)
    ensures |s.patterns| == 4
    ensures forall j :: 0 <= j < 4 ==> |s.patterns[j].keys| == NumStrings
    ensures forall j :: 0 <= j < 4 ==> s.patterns[j].duration == PatternBeats
    ensures forall j :: 0 <= j < 4 ==> s.patterns[j].strum == DefaultStrum()
  {
    Song(120, [NewPattern([43, 47, 50, 55, 59, 67]),
               NewPattern([40, 47, 52, 55, 59, 64]),
               NewPattern([48, 48, 52, 55, 60, 64]),
               NewPattern([50, 45, 50, 57, 60, 66])])
  }
}
