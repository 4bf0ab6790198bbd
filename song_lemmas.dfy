/**
 * What ctransposer.py promises about whole songs, proved of the functions
 * that specify `get_chords_from_song`, `transpose_song_dict` and the overlay
 * of `transpose_song_lines`.
 */
module SongFacts {
  import opened Wrappers
  import opened Text
  import opened Pitch
  import opened Chords
  import opened ChordFacts
  import opened ChordLines
  import opened ChordLineFacts
  import opened Songs

  // ---------------------------------------------------------------------------
  // get_chords_from_song (ctransposer.py:79-95)

  /**
   * The index holds exactly the chord lines of the song, each under its
   * number with the chords `split_chord_line` finds in it; collecting fails
   * exactly when a chord line raises, with the error of the first such line.
   */
  lemma {:induction false} SongChordsEach(song: seq<string>)
    ensures var r := SongChords(song);
            && (r.Success? <==> forall n :: 0 <= n < |song| && ChordLine(song[n]) ==> SplitLine(song[n]).Success?)
            && (r.Success? ==> forall n: nat :: n in r.value <==> n < |song| && ChordLine(song[n]))
            && (r.Success? ==> forall n :: n in r.value ==> r.value[n] == SplitLine(song[n]).value)
  {
    if song != [] {
      var p := song[..|song| - 1];
      SongChordsEach(p);
      assert forall n :: 0 <= n < |p| ==> p[n] == song[n];
    }
  }

  /** When the song raises, it is with the error of its first chord line that does not split. */
  lemma {:induction false} SongChordsFirstFailure(song: seq<string>)
    requires SongChords(song).Failure?
    ensures exists n :: 0 <= n < |song| && ChordLine(song[n]) && SplitLine(song[n]) == Failure(SongChords(song).error)
                        && (forall j :: 0 <= j < n && ChordLine(song[j]) ==> SplitLine(song[j]).Success?)
  {
    var p := song[..|song| - 1];
    assert forall n :: 0 <= n < |p| ==> p[n] == song[n];
    if SongChords(p).Failure? {
      SongChordsFirstFailure(p);
    } else {
      SongChordsEach(p);
      var n := |song| - 1;
      assert ChordLine(song[n]) && SplitLine(song[n]) == Failure(SongChords(song).error);
    }
  }


  // ---------------------------------------------------------------------------
  // transpose_song_dict (ctransposer.py:98-108)

  /** Two non-zero shifts of the index in turn are one shift by their sum, when that is not zero. */
  lemma TransposeIndexCompose(m: map<nat, seq<Placed>>, a: int, b: int)
    requires a != 0 && b != 0 && a + b != 0
    ensures TransposeIndex(TransposeIndex(m, a), b) == TransposeIndex(m, a + b)
  {
    forall n | n in m
      ensures TransposeLine(TransposeLine(m[n], a), b) == TransposeLine(m[n], a + b)
    {
      forall k | 0 <= k < |m[n]|
        ensures TransposeLine(TransposeLine(m[n], a), b)[k] == TransposeLine(m[n], a + b)[k]
      {
        TransposedCompose(m[n][k].chord, a, b);
      }
    }
  }

  /** The shift keeps the line numbers, the number of chords of each line and their columns. */
  lemma TransposeIndexKeeps(m: map<nat, seq<Placed>>, s: int)
    ensures var t := TransposeIndex(m, s);
            && t.Keys == m.Keys
            && (forall n :: n in m ==> |t[n]| == |m[n]|)
            && (forall n, k :: n in m && 0 <= k < |m[n]| ==> t[n][k].col == m[n][k].col)
            && (forall n, k :: n in m && 0 <= k < |m[n]| && s != 0 ==> t[n][k].chord == Transposed(m[n][k].chord, s))
  {
  }

  // ---------------------------------------------------------------------------
  // The overlay (ctransposer.py:137-145)

  /** The columns a chord's text covers once written at its column. */
  predicate Covers(v: Placed, j: int)
  {
    v.col <= j < v.col + |v.chord.ChordText()|
  }

  /** The chord's text runs past the end of the line. */
  predicate Overruns(line: string, v: Placed)
  {
    v.chord.ChordText() != [] && v.col + |v.chord.ChordText()| > |line|
  }

  /**
   * Overlaying the chords of a line keeps its length; a character no chord
   * text covers is left as it was; a covered character is that of the last
   * chord covering it; and the overlay fails exactly when some chord text
   * runs past the end of the line.
   */
  lemma {:induction false} OverlayLineEach(line: string, vs: seq<Placed>)
    ensures var r := OverlayLine(line, vs);
            && (r.None? <==> exists k :: 0 <= k < |vs| && Overruns(line, vs[k]))
            && (r.Some? ==> |r.value| == |line|)
            && (r.Some? ==> forall j :: 0 <= j < |line| && (forall k :: 0 <= k < |vs| ==> !Covers(vs[k], j)) ==>
                  r.value[j] == line[j])
            && (r.Some? ==> forall j, k ::
                  (0 <= j < |line| && 0 <= k < |vs| && Covers(vs[k], j) && forall k' :: k < k' < |vs| ==> !Covers(vs[k'], j)) ==>
                  r.value[j] == vs[k].chord.ChordText()[j - vs[k].col])
  {
    if vs != [] {
      var p := vs[..|vs| - 1];
      var v := vs[|vs| - 1];
      OverlayLineEach(line, p);
      assert forall k :: 0 <= k < |p| ==> p[k] == vs[k];
      var r := OverlayLine(line, vs);
      if OverlayLine(line, p).Some? {
        var l := OverlayLine(line, p).value;
        assert r == WriteText(l, v.col, v.chord.ChordText());
        if r.Some? {
          forall j, k | 0 <= j < |line| && 0 <= k < |vs| && Covers(vs[k], j) && (forall k' :: k < k' < |vs| ==> !Covers(vs[k'], j))
            ensures r.value[j] == vs[k].chord.ChordText()[j - vs[k].col]
          {
            if k < |p| {
              assert !Covers(v, j);
            }
          }
        }
      }
    }
  }

  // ---------------------------------------------------------------------------
  // transpose_song_lines (ctransposer.py:123-145)

  /** The chords of the song once collected and shifted, as the overlay writes them. */
  function NewChords(song: seq<string>, s: int): map<nat, seq<Placed>>
    requires SongChords(song).Success?
  {
    TransposeIndex(SongChords(song).value, s)
  }

  /**
   * The transposed song raises a chord error exactly when collecting the
   * chords does; otherwise it has as many lines as the song, every line that
   * is not a chord line is unchanged, and every chord line keeps its length.
   */
  lemma TransposedSongShape(song: seq<string>, s: int)
    ensures var r := TransposedSong(song, s);
            && (r.Failure? && r.error.BadChord? <==> SongChords(song).Failure?)
            && (r.Success? ==> |r.value| == |song|)
            && (r.Success? ==> forall i :: 0 <= i < |song| ==> |r.value[i]| == |song[i]|)
            && (r.Success? ==> forall i :: 0 <= i < |song| && !ChordLine(song[i]) ==> r.value[i] == song[i])
  {
    SongChordsEach(song);
    if SongChords(song).Success? {
      var m := NewChords(song, s);
      TransposeIndexKeeps(SongChords(song).value, s);
      OverlaySongEach(song, m);
      forall n | n in m
        ensures OverlayLine(song[n], m[n]).Some? ==> |OverlayLine(song[n], m[n]).value| == |song[n]|
      {
        OverlayLineEach(song[n], m[n]);
      }
    }
  }

  /**
   * Each chord line of the transposed song is its line with the new chord
   * texts written over it, as `OverlayLine` describes character by
   * character.
   */
  lemma TransposedSongChordLines(song: seq<string>, s: int)
    requires SongChords(song).Success?
    ensures var r := TransposedSong(song, s);
            var m := NewChords(song, s);
            r.Success? ==> forall i :: i in m ==> OverlayLine(song[i], m[i]).Some? && r.value[i] == OverlayLine(song[i], m[i]).value
  {
    OverlaySongEach(song, NewChords(song, s));
  }

  /**
   * The transposed song runs past the end of a line exactly when the chords
   * are collected and some new chord text is longer than what is left of
   * its line.
   */
  lemma TransposedSongPastEnd(song: seq<string>, s: int)
    ensures TransposedSong(song, s) == Failure(PastEndOfLine) <==>
              && SongChords(song).Success?
              && var m := TransposeIndex(SongChords(song).value, s);
                 exists n, k :: n in m && 0 <= k < |m[n]| && Overruns(song[n], m[n][k])
  {
    if SongChords(song).Success? {
      var m := TransposeIndex(SongChords(song).value, s);
      OverlaySongEach(song, m);
      forall n | n in m
        ensures OverlayLine(song[n], m[n]).None? <==> exists k :: 0 <= k < |m[n]| && Overruns(song[n], m[n][k])
      {
        OverlayLineEach(song[n], m[n]);
      }
    }
  }

  // ---------------------------------------------------------------------------
  // Songs of one chord

  /** A short word starting with a root letter is a chord line of one chord text, itself. */
  lemma SingleChordLine(t: string)
    requires t != [] && IsRootLetter(t[0]) && ' ' !in t && |t| < 4
    ensures ChordLine(t)
    ensures Tokens(t) == [Token(t, 0)]
  {
    CountedWord(t);
    forall k | 0 <= k < |IllegalNames|
      ensures !Contains(t, IllegalNames[k])
    {
      assert |IllegalNames[k]| >= 4;
    }
    UpToAbsent(t, ' ');
    assert t[0..] == t;
    assert TokensFrom(t, |t|) == [];
    assert TokensFrom(t, 0) == [Token(t, 0)] + TokensFrom(t, |t|);
  }

  /** The chord line of one short chord splits into that chord at column 0. */
  lemma SingleSplit(t: string)
    requires Tokens(t) == [Token(t, 0)] && Parse(t).Success?
    ensures SplitLine(t) == Success([Placed(Parse(t).value, 0)])
  {
    var toks: seq<Token> := [Token(t, 0)];
    var none: seq<Token> := [];
    assert none + toks == toks;
    ParseAllSnoc(none, Token(t, 0));
    var ps: seq<Placed> := [];
    assert ps + [Placed(Parse(t).value, 0)] == [Placed(Parse(t).value, 0)];
    assert ParseAll(toks) == Success([Placed(Parse(t).value, 0)]);
  }

  /** A song of one chord line whose chords parse has them as its whole index. */
  lemma OneLineSongChords(line: string)
    requires ChordLine(line) && SplitLine(line).Success?
    ensures SongChords([line]) == Success(map[0 := SplitLine(line).value])
  {
    var song := [line];
    assert song[..0] == [] && song[..1] == song;
    SongChordsStep(song, 0);
    assert map[][0 := SplitLine(line).value] == map[0 := SplitLine(line).value];
  }

  /** A song of one chord line is overlaid line by line. */
  lemma OverlaySongOne(line: string, v: Placed)
    ensures OverlaySong([line], map[0 := [v]]) == match WriteText(line, v.col, v.chord.ChordText())
                                                case None => None
                                                case Some(l) => Some([l])
  {
    var vs := [v];
    assert vs[..0] == [];
    assert OverlayLine(line, vs) == WriteText(line, v.col, v.chord.ChordText());
    var m := map[0 := vs];
    OverlaySongEach([line], m);
    if OverlayLine(line, vs).Some? {
      assert OverlaySong([line], m).value == [OverlayLine(line, vs).value];
    }
  }

  /**
   * A song of one short chord: the line is replaced by the chord's text,
   * transposed unless the shift is zero, written from column 0 over it.
   */
  lemma SingleChordSong(t: string, s: int)
    requires ChordLine(t) && Tokens(t) == [Token(t, 0)] && Parse(t).Success?
    ensures var c := if s == 0 then Parse(t).value else Transposed(Parse(t).value, s);
            TransposedSong([t], s) == match WriteText(t, 0, c.ChordText())
                                      case None => Failure(PastEndOfLine)
                                      case Some(l) => Success([l])
  {
    SingleSplit(t);
    OneLineSongChords(t);
    var c := if s == 0 then Parse(t).value else Transposed(Parse(t).value, s);
    var m := map[0 := [Placed(Parse(t).value, 0)]];
    assert TransposeIndex(m, s) == map[0 := [Placed(c, 0)]] by {
      if s != 0 {
        assert TransposeLine(m[0], s) == [Placed(c, 0)];
      }
    }
    OverlaySongOne(t, Placed(c, 0));
  }

  /** A song of one chord whose new text fits its line: the text is written over the start of the line. */
  lemma SingleChordOver(t: string, s: int, text: string)
    requires ChordLine(t) && Tokens(t) == [Token(t, 0)] && Parse(t).Success?
    requires 0 < |text| <= |t|
    requires (if s == 0 then Parse(t).value else Transposed(Parse(t).value, s)).ChordText() == text
    ensures TransposedSong([t], s) == Success([text + t[|text|..]])
  {
    SingleChordSong(t, s);
    WriteTextAt0(t, text);
  }

  /** A song of one chord whose new text is longer than its line raises. */
  lemma SingleChordPast(t: string, s: int, text: string)
    requires ChordLine(t) && Tokens(t) == [Token(t, 0)] && Parse(t).Success?
    requires |text| > |t|
    requires (if s == 0 then Parse(t).value else Transposed(Parse(t).value, s)).ChordText() == text
    ensures TransposedSong([t], s) == Failure(PastEndOfLine)
  {
    SingleChordSong(t, s);
  }

  /** Text written from column 0 of a line at least as long. */
  lemma WriteTextAt0(line: string, text: string)
    requires 0 < |text| <= |line|
    ensures WriteText(line, 0, text) == Some(text + line[|text|..])
  {
    assert line[..0] + text == text;
  }

  /** A bare root parses to its index, and is written, shifted or not, with the sharp name of its index. */
  lemma RootChordText(root: string, s: int)
    requires root in ChordMap
    ensures Parse(root).Success? && Parse(root).value.index == ChordMap[root]
    ensures Parse(root).value.ChordText() == SharpOf(ChordMap[root])
    ensures Transposed(Parse(root).value, s).ChordText() == SharpOf(TransposedIndex(ChordMap[root], s))
  {
    var i := ChordMap[root];
    ParseRootAndSuffix(root, "");
    assert root + "" == root;
    MakeInRange(i, "");
    TransposedMakeText(i, "", s);
    assert Parse(root) == Make(i, "");
  }

  /**
   * A chord written over a longer one leaves the rest of the old text in
   * the line: `A#` moved up a semitone is `B`, and the line `A#` becomes
   * `B#`.
   */
  lemma ExampleStaleTail()
    ensures TransposedSong(["A#"], 1) == Success(["B#"])
  {
    assert "B" + "A#"[1..] == "B#";
    assert ChordMap["A#"] == 2 && TransposedIndex(2, 1) == 3 && SharpOf(3) == "B";
    SingleChordLine("A#");
    RootChordText("A#", 1);
    SingleChordOver("A#", 1, "B");
  }

  /** A chord whose new text is longer than its line raises: the line `A` moved up a semitone would need `A#`. */
  lemma ExamplePastEnd()
    ensures TransposedSong(["A"], 1) == Failure(PastEndOfLine)
  {
    assert ChordMap["A"] == 1 && TransposedIndex(1, 1) == 2 && SharpOf(2) == "A#";
    SingleChordLine("A");
    RootChordText("A", 1);
    SingleChordPast("A", 1, "A#");
  }

  /** Even without a shift a flat chord is written back with its sharp name: the line `Bb` becomes `A#`. */
  lemma ExampleFlatRespelled()
    ensures TransposedSong(["Bb"], 0) == Success(["A#"])
  {
    assert "A#" + "Bb"[2..] == "A#";
    assert ChordMap["Bb"] == 2 && SharpOf(2) == "A#";
    SingleChordLine("Bb");
    RootChordText("Bb", 0);
    SingleChordOver("Bb", 0, "A#");
  }
}
