/**
 * The two lookup tables of chord.py and the modular index arithmetic that
 * transposition uses (chord.py:5-46, chord.py:193).
 */
module Pitch {

  /** ST_IN_OCTAVE */
  const SemitonesInOctave := 12

  /** SCALE_MAP: semitone index to its spellings, sharp first, then the flat one if any. */
  const ScaleMap: map<int, seq<string>> := map[
    1 := ["A"],
    2 := ["A#", "Bb"],
    3 := ["B"],
    4 := ["C"],
    5 := ["C#", "Db"],
    6 := ["D"],
    7 := ["D#", "Eb"],
    8 := ["E"],
    9 := ["F"],
    10 := ["F#", "Gb"],
    11 := ["G"],
    12 := ["G#", "Ab"]]

  /** CHORD_MAP: root spelling to semitone index, with the German H and Hb. */
  const ChordMap: map<string, int> := map[
    "A" := 1,
    "A#" := 2,
    "Bb" := 2,
    "Hb" := 2,
    "B" := 3,
    "H" := 3,
    "C" := 4,
    "C#" := 5,
    "Db" := 5,
    "D" := 6,
    "D#" := 7,
    "Eb" := 7,
    "E" := 8,
    "F" := 9,
    "F#" := 10,
    "Gb" := 10,
    "G" := 11,
    "G#" := 12,
    "Ab" := 12]

  /** The letters a chord may start with (chord.py:133); ValidLettersAreFirstLetters shows they are the first letters of CHORD_MAP's keys. */
  const ValidLetters: set<char> := {'A', 'B', 'C', 'D', 'E', 'F', 'G', 'H'}

  /** SCALE_MAP[i][0] */
  function SharpOf(i: int): (name: string)
    requires i in ScaleMap
    ensures |name| > 0
  {
    ScaleMap[i][0]
  }

  /** SCALE_MAP[i][1] when the pitch has a flat spelling, otherwise the sharp one (chord.py:102-106). */
  function FlatOf(i: int): (name: string)
    requires i in ScaleMap
    ensures |name| > 0
  {
    if |ScaleMap[i]| > 1 then ScaleMap[i][1] else ScaleMap[i][0]
  }

  /** The index after moving `s` semitones, wrapping within the octave (chord.py:193). */
  function TransposedIndex(i: int, s: int): (r: int)
    ensures r in ScaleMap
    ensures 1 <= r <= SemitonesInOctave
  {
    ((i + s - 1) % SemitonesInOctave) + 1
  }

  /** Every spelling SCALE_MAP gives for an index is a CHORD_MAP key that leads back to it. */
  lemma TableRoundTrip(i: int)
    requires i in ScaleMap
    ensures SharpOf(i) in ChordMap && ChordMap[SharpOf(i)] == i
    ensures FlatOf(i) in ChordMap && ChordMap[FlatOf(i)] == i
  {
  }

  /** Every CHORD_MAP value is an index SCALE_MAP knows, so a resolved root is always a valid index. */
  lemma ChordMapInScale(name: string)
    requires name in ChordMap
    ensures ChordMap[name] in ScaleMap
  {
  }

  /** The valid first letters are exactly the first letters of CHORD_MAP's keys. */
  lemma ValidLettersAreFirstLetters()
    ensures ValidLetters == set k | k in ChordMap && |k| > 0 :: k[0]
  {
    assert "A" in ChordMap && "B" in ChordMap && "C" in ChordMap && "D" in ChordMap;
    assert "E" in ChordMap && "F" in ChordMap && "G" in ChordMap && "H" in ChordMap;
  }

  lemma ModAddMultiple(x: int, q: int)
    ensures (x + SemitonesInOctave * q) % SemitonesInOctave == x % SemitonesInOctave
  {
    var n := SemitonesInOctave;
    var r := x % n;
    var d := x / n;
    assert x == n * d + r;
    assert x + n * q == n * (d + q) + r;
  }

  /** Moving by `a` and then by `b` is moving by `a + b`, from any index, the invalid 0 included. */
  lemma {:induction false} TransposedIndexCompose(i: int, a: int, b: int)
    ensures TransposedIndex(TransposedIndex(i, a), b) == TransposedIndex(i, a + b)
  {
    var n := SemitonesInOctave;
    var x := i + a - 1;
    ModAddMultiple(x % n, x / n);
    assert x == x % n + n * (x / n);
    var y := x % n + b;
    ModAddMultiple(y, x / n);
    assert y + n * (x / n) == i + a + b - 1;
  }

  /** Moving by zero keeps a valid index. */
  lemma TransposedIndexZero(i: int)
    requires i in ScaleMap
    ensures TransposedIndex(i, 0) == i
  {
  }

  /** Moving by a whole octave more changes nothing. */
  lemma {:induction false} TransposedIndexPeriodic(i: int, s: int)
    ensures TransposedIndex(i, s + SemitonesInOctave) == TransposedIndex(i, s)
  {
    ModAddMultiple(i + s - 1, 1);
  }

  /** Moving by `s` and back by `-s` returns to a valid index. */
  lemma {:induction false} TransposedIndexInverse(i: int, s: int)
    requires i in ScaleMap
    ensures TransposedIndex(TransposedIndex(i, s), -s) == i
  {
    TransposedIndexCompose(i, s, -s);
    TransposedIndexZero(i);
  }
}
