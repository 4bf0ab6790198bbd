# song-chords-transposer in Dafny

A model of the core of the song chords transposer, with proofs. The
transposer reads a song sheet: lines of lyrics, with lines of chord names
above them. It finds the chord lines, builds a chord object for each chord
name, shifts every chord by a number of semitones, and writes the new chord
names back over the old ones at the same columns.

The model covers four parts.

- **`chord.py`** (modules `Pitch`, `Text`, `Chords`, `ChordFacts`):
  - the pitch tables `SCALE_MAP` and `CHORD_MAP`;
  - the `Chord` class, built from text (`Chord("Bbm7")`) or from an index and a suffix (`Chord(8, "m")`);
  - the getters, which write a chord back out;
  - `transpose`, which moves the index round the octave and carries the sub-chord after `/` along.
- **`ctransposer.py`** (modules `ChordLines`, `ChordLineFacts`, `Songs`, `SongFacts`):
  - `is_chord_line`, which counts how many words start like a chord;
  - `split_chord_line`, which cuts a chord line into chord objects and their columns;
  - `get_chords_from_song`, the index of chord lines by line number;
  - `transpose_song_dict`, which transposes the chord objects in place;
  - the overlay part of `transpose_song_lines`.
- **`animals.py`** (module `Animals`): `most_common_animal`.
- **Python exceptions**: modelled as results, never as preconditions. Each module declares its own error type (`Chords.ChordError`, `Songs.SongError`, `Animals.AnimalError`); module `Wrappers` holds only the generic `Option`, `Result` and `Outcome`.
  - `Chord(text)` raises `IndexError` on a text that is empty once stripped. This becomes `EmptyText`.
  - It raises `KeyError` on a root that is not a `CHORD_MAP` key. This becomes `UnknownRoot`.
  - Writing a chord past the end of its line raises `IndexError`. This becomes `PastEndOfLine`.
  - `max` of an empty dictionary raises. This becomes `NothingObserved`.

The model follows one pattern throughout:

- each operation is a function on values (`Parse`, `Transposed`, `SplitLine`, `SongChords`, `TransposedSong`, `MostCommon`);
- the Python code that changes state is an imperative method proved to produce exactly that function's result. Examples:
  - the `Chord` class with its fields and its in-place `_setup_*` methods and `transpose`;
  - the character loops of `is_chord_line` and `split_chord_line`;
  - the dictionary of chord objects transposed in place;
  - the copy of the song whose lines are rewritten;
  - the counting loop of `most_common_animal`.

The lemmas state what the source promises about those functions.

Behaviour of the code that the proofs make explicit:

- **Flat chords come back as sharps.** `get_chord_text` is the sharp spelling, so a flat chord comes back as its sharp even with no shift: the line `Bb` becomes `A#` (`SongFacts.ExampleFlatRespelled`).
- **A shorter new name leaves the old tail.** The overlay writes the new text over the old one and does not clear what is left: the line `A#` moved up a semitone becomes `B#` (`SongFacts.ExampleStaleTail`).
- **A longer new name can raise.** When the new name is longer than what is left of its line, the write raises (`SongFacts.ExamplePastEnd`). Otherwise it overwrites the characters after the old name.
- **`Am#` raises.** `tests/test_chord.py:14` expects `Am#` to give an invalid chord. The code instead makes `Am` the root (a `#` anywhere after the first letter selects the first two characters) and the `CHORD_MAP` lookup raises `KeyError`. The model follows the code (`ChordFacts.ExampleSharpAfterSuffix`). `C/Bb` and `Cm7b5` raise for the same reason, and `ChordFacts.LateAccidentalRaises` states the general case.
- **An invalid sub-chord does not survive a shift of zero.** `Chord('G/x')` is a valid G whose sub-chord `x` is invalid, with index 0, and its text is `G/`. Transposing moves the sub-chord's index too, from 0 to 12, so `transpose(0)`, or `+1` then `-1`, gives `G/G#` (`ChordFacts.ExampleInvalidSubChord`, `ChordFacts.ExampleInvalidSubChordMoves`, `ChordFacts.InvalidSubChordMoves`). The round-trip lemmas therefore require every sub-chord to be valid.
- **`H` is not a chord start in a song line.** `is_chord_line` and `split_chord_line` look characters up in `DEFAULT_CHORD_ROOTS`, which holds `A` to `G` and their sharps but not `H`. `Chord("H")` itself is valid.

## Model

| member | source | states |
|---|---|---|
| Pitch.TransposedIndex | chord.py:191-194 | the new index `((i+s-1) mod 12)+1` always lies in 1..12 and is a key of SCALE_MAP, even from the invalid index 0 |
| Pitch.TableRoundTrip | chord.py:15-46 | both spellings SCALE_MAP gives an index are CHORD_MAP keys that map back to that index |
| Pitch.ChordMapInScale | chord.py:28-46 | every CHORD_MAP value is an index of SCALE_MAP |
| Pitch.ValidLettersAreFirstLetters | chord.py:133 | the valid first letters are exactly the first letters of CHORD_MAP's keys, A to H |
| Pitch.TransposedIndexCompose | chord.py:193 | moving by `a` then by `b` is moving by `a+b`, from any index |
| Pitch.TransposedIndexPeriodic | chord.py:191-193 | a shift by an octave more gives the same index |
| Pitch.TransposedIndexInverse | chord.py:193 | moving by `s` then by `-s` returns to any valid index |
| Pitch.ScaleMap | chord.py:15-26 | SCALE_MAP: the twelve indexes, each with its sharp spelling and, for five of them, a flat one |
| Pitch.ChordMap | chord.py:28-46 | CHORD_MAP: the nineteen root spellings, German `H` and `Hb` included, and their indexes |
| Text.TrimStartDropsLeadingSpace | chord.py:115 | `lstrip` removes exactly the leading whitespace |
| Text.TrimEndDropsTrailingSpace | chord.py:115 | `rstrip` removes exactly the trailing whitespace |
| Text.UpTo | chord.py:85-86 | `s.split(sep)[0]` is the text before the first separator, all of `s` when there is none |
| Text.UpToIsPrefix | chord.py:85-86 | `s.split(sep)[0]` is a prefix of `s`: the text before the first separator is exactly the first characters of `s` |
| Text.UpToFirst | chord.py:85-86 | the part before the first `/` of `a + "/" + b` is `a` |
| Text.Contains | ctransposer.py:30 | the substring test holds exactly when the word occurs at some position |
| Text.IsSpace | chord.py:115 | the characters Python's `str.strip()` treats as whitespace |
| Text.Strip | chord.py:115 | `chord_text.strip()`: leading then trailing whitespace removed, never longer than the text |
| Text.Upper | chord.py:134 | `char.upper()`: an ASCII lower-case letter becomes its capital, any other character is kept |
| Chords.Transposed | chord.py:184-197 | a transposed chord is valid, has an index of SCALE_MAP, keeps its suffix and keeps or lacks a sub-chord as before |
| Chords.ChordValue.SuffixText | chord.py:175-182 | `get_suffixes`: the suffix, then `/` and the sub-chord's chord text when there is a sub-chord |
| Chords.ChordValue.SharpText | chord.py:167-169 | `get_sharp_name`: the sharp spelling followed by the suffix text |
| Chords.ChordValue.FlatText | chord.py:171-173 | `get_flat_name`: the flat spelling followed by the suffix text |
| Chords.ChordValue.ChordText | chord.py:159-165 | `get_chord_text`: the sharp text |
| Chords.WithoutAccidentals | chord.py:139-144 | the characters the parse loop collects as suffix: every one but `#` and `b`, in order, never more than the text |
| Chords.RootName | chord.py:137-142 | the root the parse loop settles on: the first two characters once a `#` or `b` follows anywhere, otherwise the first letter upper-cased; one or two characters |
| Chords.SuffixSetup | chord.py:77-91 | `_process_suffixes`: with a `/`, the text before it is the suffix and the text between the first and second `/` is parsed as sub-chord, raising its error; without one the suffix is stored |
| Chords.IndexSetup | chord.py:93-108 | `_setup_with_index`: an index outside SCALE_MAP changes nothing; otherwise index and spellings from SCALE_MAP, suffixes processed, chord valid |
| Chords.Parse | chord.py:110-153 | `Chord(text)`: an empty stripped text raises, a first letter outside A to H gives the blank chord, an unknown root raises, otherwise the root's index is set up with the collected suffix |
| Chords.Make | chord.py:93-108 | `Chord(index, suffixes)`: `_setup_with_index` on a new object |
| Chords.WellFormed | chord.py:93-153 | what every constructed chord satisfies: a valid one has its index's table spellings and a suffix without `/`, an invalid one is blank, and so for its sub-chord |
| Chords.ParseWellFormed | chord.py:110-153 | every chord `Chord(text)` builds has the table's spellings for its index, a suffix without `/`, or is the blank invalid chord; the same holds of its sub-chord |
| Chords.IndexSetupWellFormed | chord.py:93-108 | `_setup_with_index` keeps a chord well formed |
| Chords.TransposedWellFormed | chord.py:184-197 | transposing keeps a chord well formed |
| Chords.TransposeIsIndexSetup | chord.py:193-194 | `transpose` is `_setup_with_index` at the moved index with the chord's own suffix |
| Chords.IndexSetupOverwrites | chord.py:93-108 | at a valid index `_setup_with_index` overwrites every attribute except the sub-chord |
| Chords.Chord.constructor | chord.py:54-59 | a new object holds the class defaults: index 0, empty names and suffix, no sub-chord, invalid |
| Chords.Chord.FromText | chord.py:61-63 | `Chord(text)` raises exactly when `Parse(text)` fails, with its error; otherwise the new chord holds `Parse(text)` and owns fresh objects |
| Chords.Chord.FromIndex | chord.py:64-65 | `Chord(i, sfx)` raises exactly when `Make(i, sfx)` fails; otherwise the chord holds `Make(i, sfx)` |
| Chords.Chord.ProcessSuffixes | chord.py:77-91 | the attributes become `SuffixSetup` of the old ones: before the first `/` is the suffix, between the first and second `/` the parsed sub-chord; the error of that parse is passed on |
| Chords.Chord.SetupWithIndex | chord.py:93-108 | an index outside SCALE_MAP changes nothing; otherwise the attributes become `IndexSetup` of the old ones |
| Chords.Chord.PopulateNamesAndSuffixes | chord.py:125-153 | an empty text raises; a first letter outside A to H sets nothing; otherwise the suffix is the text after the first letter without `#` and `b`, and the root (first two characters once an accidental is seen) goes to the sharp or flat name |
| Chords.Chord.SetupWithText | chord.py:110-123 | the attributes become `Parse(text)`, or the error it names is raised |
| Chords.Chord.IsValid | chord.py:155-157 | returns the validity flag of the chord's value |
| Chords.Chord.GetSuffixes | chord.py:175-182 | the suffix, then `/` and the sub-chord's text when there is a sub-chord |
| Chords.Chord.GetSharpName | chord.py:167-169 | the sharp name followed by the suffixes |
| Chords.Chord.GetFlatName | chord.py:171-173 | the flat name followed by the suffixes |
| Chords.Chord.GetChordText | chord.py:159-165 | the chord text is the sharp text |
| Chords.Chord.Transpose | chord.py:184-197 | the chord, sub-chords included, becomes `Transposed(old, s)`, stays constructed and owns the same objects |
| ChordFacts.TransposedCompose | chord.py:184-197 | transposing by `a` then `b` is transposing by `a+b`, sub-chords included |
| ChordFacts.TransposedZero | chord.py:193-194 | a shift of zero leaves a well-formed chord as it is when it and every sub-chord are valid |
| ChordFacts.TransposedRoundTrip | chord.py:193-194 | transposing a well-formed chord whose parts, sub-chords included, are all valid by `s` then `-s` restores index, spellings, suffix, sub-chord and chord text |
| ChordFacts.TransposedPeriodic | chord.py:191-193 | a shift by an octave more transposes the same way |
| ChordFacts.TransposedAllValid | chord.py:193-197 | after transposing, the chord and every sub-chord are valid, even those that started at index 0 |
| ChordFacts.InvalidSubChordMoves | chord.py:193-197 | an invalid (blank) sub-chord is moved from index 0 and made valid, so a shift of zero, or a shift and its inverse, changes such a chord |
| ChordFacts.TransposedNames | chord.py:193-194 | the transposed chord has the moved index and that index's sharp and flat spellings, and its text is that spelling followed by the same suffix text |
| ChordFacts.IndexSetupOutOfRange | chord.py:98-99 | an index outside SCALE_MAP leaves the chord unchanged, so `Chord(i, sfx)` is the blank invalid chord |
| ChordFacts.MakeInRange | chord.py:100-108 | `Chord(i, sfx)` for `i` in 1..12 has the sharp name `SCALE_MAP[i][0]`, the flat name `SCALE_MAP[i][1]` or else the sharp one, the suffix, and is valid |
| ChordFacts.MakeWithSubChord | chord.py:82-108 | with a `/` in the suffix, `Chord(i, sfx)` fails exactly when the sub-chord text fails and otherwise holds the part before `/` and the parsed sub-chord |
| ChordFacts.MakeWithSlash | chord.py:82-88 | `Chord(i, before + "/" + sub)` has the suffix `before` and the sub-chord `Chord(sub)` |
| ChordFacts.WithoutAccidentalsFilters | chord.py:140-144 | the parse loop keeps every character other than `#` and `b`, as often as it occurs, and no `#` or `b` |
| ChordFacts.BlankTextFails | chord.py:134 | a text of whitespace raises the `IndexError` of `chord_text[0]` |
| ChordFacts.NotALetterIsBlank | chord.py:133-135 | a first letter outside A to H gives the blank chord: invalid, index 0, no names |
| ChordFacts.ParsedValidity | chord.py:133-153 | a chord built from text is valid exactly when its first letter, in either case, is A to H |
| ChordFacts.ChordMapKeyShape | chord.py:28-46 | every CHORD_MAP key is a capital A to H, possibly followed by `#` or `b` |
| ChordFacts.ParseTrimmed | chord.py:110-153 | for a stripped text, `Chord(text)` is blank, raises `KeyError` on the root, or is set up from the root's index with the text after the first letter, less its accidentals, as suffix |
| ChordFacts.RootNameOfRootAndSuffix | chord.py:138-144 | the root scan of `root + sfx` settles on `root` and collects `sfx` without its accidentals |
| ChordFacts.ParseRootThen | chord.py:110-153 | a CHORD_MAP root followed by text is `Chord(index, text less accidentals)` |
| ChordFacts.ParseIsMake | chord.py:110-153 | a text made of a CHORD_MAP root and a plain suffix builds the same chord as `Chord(index, suffix)` |
| ChordFacts.ParseRootAndSuffix | chord.py:110-153 | a CHORD_MAP root and a plain suffix parse to that index, both spellings from SCALE_MAP, that suffix, valid |
| ChordFacts.ParseWithSubChord | chord.py:77-153 | `root + sfx + "/" + sub` parses to the root with the suffix and `Chord(sub)` as sub-chord, and fails exactly when `Chord(sub)` does |
| ChordFacts.SubChordAccidentalSwallowed | chord.py:140-144 | after a two-letter root every `#` and `b` of the text is dropped, those of the sub-chord included |
| ChordFacts.ChordTextRoundTrip | chord.py:110-173 | a well-formed valid chord without sub-chord, whose suffix holds no `#` or `b` and does not end in whitespace, parses back from its chord text and from its flat name |
| ChordFacts.ExampleValidA | tests/test_chord.py:9 | `A` is valid |
| ChordFacts.ExampleValidSharpMinor | tests/test_chord.py:13 | `A#m` is valid |
| ChordFacts.ExampleValidGermanH | tests/test_chord.py:15 | `H` is valid and named B |
| ChordFacts.ExampleInvalidJ | tests/test_chord.py:16 | `J` is the blank invalid chord |
| ChordFacts.ExampleInvalidX | chord.py:132-135 | `x` starts with no letter A to H and is the blank invalid chord |
| ChordFacts.ExampleParseSlashX | chord.py:110-145 | `G/x` is set up as index 11 with the suffix `/x` |
| ChordFacts.ExampleMakeSlashX | chord.py:77-108 | index 11 with suffix `/x` has an empty suffix and the blank sub-chord |
| ChordFacts.ExampleInvalidSubChord | chord.py:77-91 | `Chord('G/x')` is a valid G with the invalid blank sub-chord, and reads `G/` |
| ChordFacts.ExampleInvalidSubChordMoves | chord.py:184-197 | `Chord('G/x')` transposed by 0, or by +1 then -1, reads `G/G#` |
| ChordFacts.LateAccidentalRaises | chord.py:140-142 | a `#` or `b` after the second character makes the first two characters the root; when the second is not an accidental the lookup raises `KeyError` on them |
| ChordFacts.ExampleSharpAfterSuffix | tests/test_chord.py:14 | `Am#` raises `KeyError` on the root `Am` |
| ChordFacts.ExampleFlatSubChord | chord.py:140-142 | `C/Bb` raises `KeyError` on the root `C/` |
| ChordFacts.ExampleFlatFive | chord.py:140-142 | `Cm7b5` raises `KeyError` on the root `Cm` |
| ChordFacts.ExampleEmptySubChord | chord.py:85-88 | the empty sub-chord of `G/` raises `IndexError` |
| ChordFacts.ExampleSpaces | chord.py:134 | a text of spaces raises `IndexError` |
| ChordFacts.ExampleEm | tests/test_chord.py:29-39 | `Chord(8, 'm')` is `Em` as chord text, sharp name and flat name |
| ChordFacts.ExampleParseEm | tests/test_chord.py:29-45 | `Chord('Em')` equals `Chord(8, 'm')` |
| ChordFacts.ExampleFlatRootSuffix | tests/test_chord.py:47 | the suffixes of `Bbm` are `m` |
| ChordFacts.ExampleParseSlashC | tests/test_chord.py:48 | `G/C` is set up as index 11 with the suffix `/C` |
| ChordFacts.MakeSlashRoot | chord.py:175-182 | a bare CHORD_MAP root after `/` becomes the sub-chord, and the suffixes and chord text then end in `/` and that root's sharp name |
| ChordFacts.ExampleMakeSlashC | tests/test_chord.py:48 | index 11 with suffix `/C` writes its suffixes as `/C` |
| ChordFacts.ExampleSlashC | tests/test_chord.py:48 | the suffixes of `G/C` are `/C` |
| ChordFacts.ExampleSubChordAccidental | chord.py:140-144 | `C#/G#` is set up as `C#` with the suffix `/G` |
| ChordFacts.ExampleSubChordText | chord.py:159-182 | that chord is written `C#/G` |
| ChordFacts.TransposedMakeText | chord.py:193-194 | a chord from an index and a plain suffix transposes to the moved index's sharp name and the same suffix |
| ChordFacts.ParsedTransposeText | chord.py:193-194 | `Chord(root + suffix)` for a CHORD_MAP root and a suffix without `#`, `b`, `/` or trailing whitespace transposes to the moved index's sharp name followed by the same suffix |
| ChordFacts.ExampleTransposeSuffixed | tests/test_chord.py:60-62 | `Chord('Em')` -3 is C#m, `Chord('Esus4')` +1 is Fsus4, `Chord('Bm7')` 0 is Bm7 |
| ChordFacts.ExampleTransposeRoots | tests/test_chord.py:63-66 | `Chord('Ab')` +1 is A, `Chord('G')` +5 is C, `Chord('C')` -5 is G, `Chord('F#')` -2 is E |
| ChordFacts.ExampleParseBb | chord.py:110-153 | `Chord('Bb')` is the chord at index 2 with no suffix |
| ChordFacts.ExampleZeroRespells | chord.py:159-165 | the chord at index 2 (`Bb`) transposed by zero is written `A#` |
| ChordLines.IsChordLine | ctransposer.py:20-46 | the counting loop returns exactly `ChordLine(line)`: at least one more than twice as many chordy words as other words, and no heading name |
| ChordLines.Counted | ctransposer.py:27-39 | the two counters after the loop: a non-space after a space counts chordy when its upper case is a root of `DEFAULT_CHORD_ROOTS`, non-chordy when it is other printable ASCII |
| ChordLines.ChordLine | ctransposer.py:30-46 | `is_chord_line`: chordy at least one more than twice non-chordy, and no illegal name in the line |
| ChordLines.TokensFrom | ctransposer.py:58-74 | the chord texts from a column on: each starts at a root letter outside a chord and runs to the next space or the line's end |
| ChordLines.Tokens | ctransposer.py:55-76 | all chord texts of a line with their starting columns |
| ChordLines.ParseAll | ctransposer.py:62-74 | `Chord(text)` of each chord text in order, or the first error raised |
| ChordLines.SplitLine | ctransposer.py:49-76 | `split_chord_line` as values: the chords at their columns, or the error raised |
| ChordLines.ParseAllSnoc | ctransposer.py:62-63 | one more chord text adds its chord at its column, or raises its error |
| ChordLines.ParseAllFailurePrefix | ctransposer.py:58-76 | once a chord text raises, the line raises that error |
| ChordLines.ScanEnd | ctransposer.py:58-76 | the scan of `split_chord_line` ends with exactly the line's chord texts, the open one last |
| ChordLines.AddChord | ctransposer.py:62-63 | a new chord object built from the token holds `Chord(text)` at the token's column, owned apart from the others, or the error is passed on |
| ChordLines.SplitChordLine | ctransposer.py:49-76 | the character loop returns chord objects holding `SplitLine(line)` at their columns, all fresh and unshared, or the error of the first chord text that raises |
| ChordLineFacts.CountedByWords | ctransposer.py:21-39 | the counters are the counts of the first characters of the pieces of `line.split(' ')` |
| ChordLineFacts.ChordLineByWords | ctransposer.py:20-46 | a chord line has at least `1 + 2*other` words starting with a root letter, and no heading name |
| ChordLineFacts.BlankLineIsNotChordLine | ctransposer.py:32-46 | an empty line or one of spaces is never a chord line |
| ChordLineFacts.HeadingIsNotChordLine | ctransposer.py:30-46 | a line containing `Chorus`, `Bridge` or `Capo` is never a chord line |
| ChordLineFacts.RunIsToken | ctransposer.py:58-70 | the run from a root letter to the next space is a chord text of the line |
| ChordLineFacts.TokensFromAt | ctransposer.py:58-76 | the chord texts found from a column on are chord texts of the line at or after that column |
| ChordLineFacts.ApartCons | ctransposer.py:60-64 | a chord text that ends before a column stays apart from the chord texts found from that column |
| ChordLineFacts.TokensFromOrdered | ctransposer.py:58-76 | each chord text found ends before the next begins, with a space between them |
| ChordLineFacts.TokensFromShape | ctransposer.py:58-76 | the chord texts from a column on are chord texts of the line, in order, separated by spaces |
| ChordLineFacts.TokensFromCover | ctransposer.py:58-76 | every root letter from a column on lies inside one of the chord texts found from there |
| ChordLineFacts.TokensOfLine | ctransposer.py:49-76 | each chord text starts at a root letter and runs to the next space or the line's end; they are in order with a space between; every root letter lies in one |
| ChordLineFacts.ParseAllValues | ctransposer.py:58-76 | the line splits exactly when every chord text parses, and then each entry is `Chord(text)` at its column |
| ChordLineFacts.ParseAllFirstFailure | ctransposer.py:58-76 | a line that raises does so with the error of its first chord text that raises |
| ChordLineFacts.ParseAllEach | ctransposer.py:58-76 | the line splits exactly when every chord text parses; then each entry is `Chord(text)` at its column; otherwise the error is that of the first failing text |
| Songs.SongChords | ctransposer.py:79-95 | the index only holds line numbers of the song |
| Songs.SongChordsStep | ctransposer.py:88-91 | a chord line adds its chords under its number, any other line adds nothing, a failing chord line raises |
| Songs.SongChordsFailurePrefix | ctransposer.py:88-91 | once a line raises, the whole song raises that error |
| Songs.CollectLine | ctransposer.py:88-91 | one turn of the loop extends the index of the lines read so far to one more line |
| Songs.AddLine | ctransposer.py:91 | the chords of a line join the index under its number, fresh and unshared |
| Songs.GetChordsFromSong | ctransposer.py:79-95 | returns chord objects holding `SongChords(song)` line by line, fresh and unshared, or the error it names |
| Songs.TransposeLine | ctransposer.py:105-108 | a line's chords transposed keep their number |
| Songs.TransposeIndex | ctransposer.py:98-108 | `transpose_song_dict` as values: a zero shift leaves the index alone, otherwise every chord of every line is transposed |
| Songs.TransposeEntry | ctransposer.py:107-108 | one chord object becomes its transposition; the others are untouched |
| Songs.TransposeLineChords | ctransposer.py:105-108 | the chords of a line hold their transposed values, at the same columns |
| Songs.TransposeOneLine | ctransposer.py:104-108 | one line of the index is transposed; the other lines' chords are unchanged |
| Songs.TransposeSongDict | ctransposer.py:98-108 | in place, the chord objects come to hold `TransposeIndex(vs, s)`: each chord transposed, nothing done for a zero shift |
| Songs.WriteText | ctransposer.py:140-142 | writing fails exactly when a character falls past the line's end; otherwise the line keeps its length, the text is at its column and every other character is unchanged |
| Songs.WriteChord | ctransposer.py:138-142 | the character-by-character write into the list of characters gives `WriteText`, or reports the write past the end |
| Songs.OverlayLineFailurePrefix | ctransposer.py:139-142 | once a chord of a line runs past its end, the line fails |
| Songs.OverlayChords | ctransposer.py:138-143 | the line rebuilt from the chord objects' texts is `OverlayLine(line, vs)` |
| Songs.OverlayLine | ctransposer.py:138-143 | the chords of a line written over it in order, each with its chord text, or nothing once one runs past the end |
| Songs.OverlaySong | ctransposer.py:137-145 | every chord line of the copy overlaid, other lines kept, or nothing when one overlay fails |
| Songs.TransposedSong | ctransposer.py:123-145 | `transpose_song_lines`: collect the chords, transpose them, write them back; a chord error or a past-the-end write is the error |
| Songs.OverlaySongEach | ctransposer.py:129-145 | the overlay fails exactly when some chord line's does; otherwise it has the song's lines, chord lines overlaid, the rest unchanged |
| Songs.OverlaidStep | ctransposer.py:143 | rewriting one line of the copy changes that line only |
| Songs.OverlaidAll | ctransposer.py:137-145 | with every chord line rewritten, the copy is the overlay of the song |
| Songs.OverlayIndexLine | ctransposer.py:138-143 | one turn of the loop replaces line `n` of the copy by its overlay, or the overlay fails |
| Songs.OverlayIndex | ctransposer.py:129-145 | the copy with every chord line rewritten is `OverlaySong(song, ts)` |
| Songs.TransposeSongLines | ctransposer.py:123-145 | returns `TransposedSong(song, s)`: the song with its chords collected, transposed and written back, or the error raised |
| SongFacts.SongChordsEach | ctransposer.py:79-95 | the index holds exactly the chord lines, each with `split_chord_line` of it; collecting succeeds exactly when every chord line splits |
| SongFacts.SongChordsFirstFailure | ctransposer.py:88-91 | a failing song fails with the error of its first chord line that raises |
| SongFacts.TransposeIndexCompose | ctransposer.py:98-108 | two non-zero shifts of the index are one shift by their non-zero sum |
| SongFacts.TransposeIndexKeeps | ctransposer.py:98-108 | the shift keeps line numbers, the number of chords and their columns, and transposes each chord when non-zero |
| SongFacts.OverlayLineEach | ctransposer.py:138-143 | the overlay fails exactly when a chord overruns the line; otherwise it keeps the length, leaves uncovered characters and gives each covered one from the last chord covering it |
| SongFacts.TransposedSongShape | ctransposer.py:123-145 | a chord error arises exactly when collecting raises; otherwise the lines keep their number and length and non-chord lines are unchanged |
| SongFacts.TransposedSongChordLines | ctransposer.py:137-145 | each chord line of the result is its overlay with the new chords |
| SongFacts.TransposedSongPastEnd | ctransposer.py:141-142 | the past-the-end error arises exactly when some new chord text overruns its line |
| SongFacts.SingleChordLine | ctransposer.py:20-76 | a short word starting with a root letter is a chord line and its one chord text |
| SongFacts.SingleSplit | ctransposer.py:49-76 | such a line splits into its one chord at column 0 |
| SongFacts.OneLineSongChords | ctransposer.py:79-95 | a one-line song whose line is a chord line has that line as its whole index |
| SongFacts.SingleChordSong | ctransposer.py:123-145 | a song of one chord is the chord's new text written over the line from column 0 |
| SongFacts.SingleChordOver | ctransposer.py:137-145 | a new text no longer than the line replaces its start and keeps the rest |
| SongFacts.SingleChordPast | ctransposer.py:141-142 | a new text longer than the line raises |
| SongFacts.RootChordText | chord.py:159-165 | a bare root is written with the sharp name of its index, shifted or not |
| SongFacts.ExampleStaleTail | ctransposer.py:140-143 | the line `A#` moved up a semitone becomes `B#` |
| SongFacts.ExamplePastEnd | ctransposer.py:141-142 | the line `A` moved up a semitone raises |
| SongFacts.ExampleFlatRespelled | ctransposer.py:140 | the line `Bb` with no shift becomes `A#` |
| Animals.Announcement | animals.py:7-10 | the message for a known animal says it is known, for any other item that it is unknown |
| Animals.Tally | animals.py:5-11 | the contents of `occurrences` after the loop: each observed item with the number of times it occurs |
| Animals.FirstSeen | animals.py:5-11 | the keys of `occurrences` in dictionary order: each item at its first appearance |
| Animals.MostCommon | animals.py:3-12 | `most_common_animal`: an error for no items, otherwise `max` over the keys in first-seen order by count |
| Animals.FirstIndex | animals.py:5-11 | the position where an item first occurs |
| Animals.FirstMax | animals.py:12 | the result of `max` is one of the keys |
| Animals.MostCommonAnimal | animals.py:3-12 | returns `MostCommon(items)`, which does not depend on the known names, and one message per item in order |
| Animals.Observe | animals.py:11 | one more item: the counts and the key order become those of the longer list |
| Animals.TallySnoc | animals.py:11 | one more item adds one to its count, starting a new key at one |
| Animals.FirstSeenKeys | animals.py:5-11 | the dictionary's keys are the observed items, each once, in the order of first appearance |
| Animals.FirstMaxIsFirstMaximum | animals.py:12 | `max` returns a key whose count no key exceeds, and every key before it has a strictly smaller count |
| Animals.MostCommonFails | animals.py:12 | the result is an error exactly for empty input; otherwise it is an observed item |
| Animals.MostCommonIsEarliestMostFrequent | animals.py:5-12 | no item is counted more often than the result; among equally frequent items the result was seen first; it is the only such item |
| Animals.ExampleTie | animals.py:5-12 | among `cat, dog, dog, cat, emu` the earlier-seen `cat` wins the tie with `dog` |

## Left out

- Printing and logging are not modelled. This covers the warnings at chord.py:67, 99, 123 and 135, the debug lines at ctransposer.py:41-44 and the "no chords" error at ctransposer.py:92-93. The warnings change nothing, so the methods just return. The messages of animals.py:7-10 are modelled as returned strings, not as output.
- Difficulty scoring is not modelled. `get_total_difficulty` and the prints at ctransposer.py:132 and 134 call `Chord.get_difficulty`, which chord.py does not define, so there is no table to model.
- The command line and file handling (`handle_options`, `main`) are outside the core.
- `__str__`, `__repr__` and the demo at the end of chord.py are display code only.
- The `__init__` dispatch on the number of arguments is not modelled. Its type tests are always true, so it is replaced by the two constructors `Chords.Chord.FromText` and `Chords.Chord.FromIndex`.
- The assignment to the public attribute `flat_name` at chord.py:153 is not modelled. Nothing reads that attribute, so the flat name stays empty, as in the source.
- `split_chord_line` starts `chord_text_col` at -1, a value no caller ever reads, so columns are natural numbers.
- The dictionaries of ctransposer.py are iterated in key order; the model fixes no order. No order is observable: an error carries no line number, and each step touches only its own line and chord objects.
- Songs.TransposeSongLines: when the overlay raises part-way, the lines already written to the copy are lost with the exception, so the model returns only the error and does not describe the partial copy.
- The input song is a `seq`, which cannot be changed, so the copy `song[:]` trivially leaves the input alone; the copy itself is the local sequence the overlay rewrites.
- Unicode case mapping: `str.upper()` is modelled for ASCII letters only. Other characters are never A to H either way, so no result changes.
