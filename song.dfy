/**
 * The song-level steps of ctransposer.py: collecting the chords of every
 * chord line of a song by line number (`get_chords_from_song`,
 * ctransposer.py:79-95), transposing all of them in place
 * (`transpose_song_dict`, ctransposer.py:98-108), and writing the new chord
 * texts back over a copy of the song (`transpose_song_lines`,
 * ctransposer.py:123-145).
 */
module Songs {
  import opened Wrappers
  import opened Chords
  import opened ChordLines

  // ---------------------------------------------------------------------------
  // get_chords_from_song (ctransposer.py:79-95)

  /**
   * The chord index of `song` as values: for each line that is a chord line,
   * its number and the chords `split_chord_line` finds in it, or the error
   * of the first chord line that raises.
   */
  function SongChords(song: seq<string>): (r: Result<map<nat, seq<Placed>>, ChordError>)
    ensures r.Success? ==> forall n :: n in r.value ==> n < |song|
  {
    if song == [] then Success(map[])
    else
      match SongChords(song[..|song| - 1])
      case Failure(e) => Failure(e)
      case Success(m) =>
        var n := |song| - 1;
        if !ChordLine(song[n]) then Success(m)
        else
          match SplitLine(song[n])
          case Failure(e) => Failure(e)
          case Success(ps) => Success(m[n := ps])
  }

  /** Every chord object held by the index. */
  ghost function ChordsOfIndex(index: map<nat, seq<Placement>>): set<Chord>
  {
    set n, c | n in index && c in ChordsOf(index[n]) :: c
  }

  /** Every object the chords of the index own. */
  ghost function IndexFootprint(index: map<nat, seq<Placement>>): set<object>
    reads ChordsOfIndex(index)
  {
    set n, o | n in index && o in Footprint(index[n]) :: o
  }

  /** Each line's chords are owned, and no two lines share an object. */
  ghost predicate IndexOwned(index: map<nat, seq<Placement>>)
    reads ChordsOfIndex(index), IndexFootprint(index)
  {
    && (forall n :: n in index ==> Owned(index[n]))
    && (forall m, n :: m in index && n in index && m != n ==> Footprint(index[m]) !! Footprint(index[n]))
  }

  /** The index holds, line by line, chord objects with the values of `vs`. */
  ghost predicate IndexRepresents(index: map<nat, seq<Placement>>, vs: map<nat, seq<Placed>>)
    reads ChordsOfIndex(index)
  {
    index.Keys == vs.Keys && forall n :: n in index ==> Represents(index[n], vs[n])
  }

  /** The chord objects of an owned line are among the objects it owns. */
  lemma ChordsInFootprint(ps: seq<Placement>)
    requires Owned(ps)
    ensures ChordsOf(ps) <= Footprint(ps)
  {
    forall c | c in ChordsOf(ps)
      ensures c in Footprint(ps)
    {
      var k :| 0 <= k < |ps| && ps[k].chord == c;
      assert c in ps[k].chord.Repr;
    }
  }

  /** A new line whose objects are fresh joins the index. */
  lemma IndexOwnedAdd(index: map<nat, seq<Placement>>, n: nat, ps: seq<Placement>, owned: set<object>)
    requires IndexOwned(index) && n !in index && Owned(ps)
    requires IndexFootprint(index) <= owned && Footprint(ps) !! owned
    ensures IndexOwned(index[n := ps])
    ensures IndexFootprint(index[n := ps]) <= owned + Footprint(ps)
  {
    var index' := index[n := ps];
    forall m | m in index
      ensures Footprint(index[m]) <= IndexFootprint(index)
    {
    }
    forall o | o in IndexFootprint(index')
      ensures o in owned + Footprint(ps)
    {
      var m :| m in index' && o in Footprint(index'[m]);
    }
  }

  /** Adding a chord line to the values and to the objects keeps them in step. */
  lemma IndexRepresentsAdd(index: map<nat, seq<Placement>>, vs: map<nat, seq<Placed>>, n: nat, ps: seq<Placement>, v: seq<Placed>)
    requires IndexRepresents(index, vs) && Represents(ps, v)
    ensures IndexRepresents(index[n := ps], vs[n := v])
  {
  }

  /** One more line of the song: a chord line adds its chords under its number, any other line nothing. */
  lemma SongChordsStep(song: seq<string>, n: nat)
    requires n < |song| && SongChords(song[..n]).Success?
    ensures !ChordLine(song[n]) ==> SongChords(song[..n + 1]) == SongChords(song[..n])
    ensures ChordLine(song[n]) && SplitLine(song[n]).Failure? ==>
              SongChords(song[..n + 1]) == Failure(SplitLine(song[n]).error)
    ensures ChordLine(song[n]) && SplitLine(song[n]).Success? ==>
              SongChords(song[..n + 1]) == Success(SongChords(song[..n]).value[n := SplitLine(song[n]).value])
  {
    assert song[..n + 1][..n] == song[..n];
  }

  /** Once a prefix of the song raises, every longer prefix raises the same error. */
  lemma {:induction false} SongChordsFailurePrefix(song: seq<string>, n: nat)
    requires n <= |song| && SongChords(song[..n]).Failure?
    ensures SongChords(song) == SongChords(song[..n])
    decreases |song| - n
  {
    if n < |song| {
      assert song[..n + 1][..n] == song[..n];
      SongChordsFailurePrefix(song, n + 1);
    } else {
      assert song[..n] == song;
    }
  }

  /**
   * `indexed_chord_lines[line_no] = split_chord_line(line_text)`: the chords
   * of one more chord line join the index under its number.
   */
  method AddLine(index: map<nat, seq<Placement>>, ghost vs: map<nat, seq<Placed>>, n: nat, line: string, ghost owned: set<object>)
    returns (ok: Outcome<ChordError>, index': map<nat, seq<Placement>>, ghost owned': set<object>)
    requires n !in index && IndexOwned(index) && IndexRepresents(index, vs) && IndexFootprint(index) <= owned
    ensures ok.Pass? <==> SplitLine(line).Success?
    ensures ok.Fail? ==> ok.error == SplitLine(line).error
    ensures ok.Pass? ==> IndexRepresents(index', vs[n := SplitLine(line).value])
    ensures ok.Pass? ==> IndexOwned(index') && IndexFootprint(index') <= owned' && fresh(owned' - owned)
  {
    assert forall o :: o in ChordsOfIndex(index) ==> allocated(o);
    assert forall o :: o in IndexFootprint(index) ==> allocated(o);
    var chords;
    ok, chords := SplitChordLine(line);
    if ok.Fail? {
      return ok, index, owned;
    }
    IndexOwnedAdd(index, n, chords, owned);
    IndexRepresentsAdd(index, vs, n, chords, SplitLine(line).value);
    index' := index[n := chords];
    owned' := owned + Footprint(chords);
  }

  /**
   * One turn of the loop of `get_chords_from_song`: line `n` is tested, and
   * when it is a chord line its chords join the index.
   */
  method CollectLine(song: seq<string>, n: nat, index: map<nat, seq<Placement>>, ghost owned: set<object>)
    returns (ok: Outcome<ChordError>, index': map<nat, seq<Placement>>, ghost owned': set<object>)
    requires n < |song| && SongChords(song[..n]).Success? && IndexRepresents(index, SongChords(song[..n]).value)
    requires (forall m :: m in index ==> m < n) && IndexOwned(index) && IndexFootprint(index) <= owned
    ensures ok.Pass? <==> SongChords(song[..n + 1]).Success?
    ensures ok.Fail? ==> ok.error == SongChords(song[..n + 1]).error
    ensures ok.Pass? ==> IndexRepresents(index', SongChords(song[..n + 1]).value) && (forall m :: m in index' ==> m < n + 1)
    ensures ok.Pass? ==> IndexOwned(index') && IndexFootprint(index') <= owned' && fresh(owned' - owned)
  {
    SongChordsStep(song, n);
    assert forall o :: o in ChordsOfIndex(index) ==> allocated(o);
    assert forall o :: o in IndexFootprint(index) ==> allocated(o);
    var isChords := IsChordLine(song[n]);
    if isChords {
      ok, index', owned' := AddLine(index, SongChords(song[..n]).value, n, song[n], owned);
    } else {
      ok, index', owned' := Pass, index, owned;
    }
  }

  /**
   * `get_chords_from_song(song)`: the chord objects of every chord line,
   * by line number, or the error of the first chord text that raises.
   */
  method GetChordsFromSong(song: seq<string>) returns (ok: Outcome<ChordError>, index: map<nat, seq<Placement>>)
    ensures ok.Pass? <==> SongChords(song).Success?
    ensures ok.Fail? ==> ok.error == SongChords(song).error
    ensures ok.Pass? ==> IndexRepresents(index, SongChords(song).value)
    ensures ok.Pass? ==> IndexOwned(index) && fresh(IndexFootprint(index))
  {
    index := map[];
    ghost var owned: set<object> := {};
    for n := 0 to |song|
      invariant SongChords(song[..n]).Success? && IndexRepresents(index, SongChords(song[..n]).value)
      invariant (forall m :: m in index ==> m < n) && IndexOwned(index) && IndexFootprint(index) <= owned
      invariant fresh(owned)
    {
      var r;
      r, index, owned := CollectLine(song, n, index, owned);
      if r.Fail? {
        SongChordsFailurePrefix(song, n + 1);
        return r, index;
      }
    }
    assert song[..|song|] == song;
    ok := Pass;
  }

  // ---------------------------------------------------------------------------
  // transpose_song_dict (ctransposer.py:98-108)

  /** Every chord of a line transposed, each at its column. */
  function TransposeLine(vs: seq<Placed>, semitones: int): (r: seq<Placed>)
    ensures |r| == |vs|
  {
    seq(|vs|, k requires 0 <= k < |vs| => Placed(Transposed(vs[k].chord, semitones), vs[k].col))
  }

  /** The chord index after `transpose_song_dict`: a zero shift leaves every chord as it is. */
  function TransposeIndex(m: map<nat, seq<Placed>>, semitones: int): map<nat, seq<Placed>>
  {
    if semitones == 0 then m else map n | n in m :: TransposeLine(m[n], semitones)
  }

  /** `chord_obj.transpose(semitones)` for entry `k` of a line; the other chords of the line are untouched. */
  method TransposeEntry(ps: seq<Placement>, k: nat, semitones: int)
    requires k < |ps| && Owned(ps)
    modifies ps[k].chord.Repr
    ensures Owned(ps)
    ensures forall j :: 0 <= j < |ps| ==> ps[j].chord.Repr == old(ps[j].chord.Repr)
    ensures forall j :: 0 <= j < |ps| ==>
              ps[j].chord.model == if j == k then Transposed(old(ps[j].chord.model), semitones) else old(ps[j].chord.model)
  {
    assert forall j :: 0 <= j < |ps| && j != k ==> ps[j].chord.Repr !! ps[k].chord.Repr;
    ps[k].chord.Transpose(semitones);
  }

  /** `for chord_obj, col in line_list: chord_obj.transpose(semitones)` */
  method TransposeLineChords(ps: seq<Placement>, semitones: int, ghost vs: seq<Placed>)
    requires Owned(ps) && Represents(ps, vs)
    modifies Footprint(ps)
    ensures Owned(ps) && Represents(ps, TransposeLine(vs, semitones))
    ensures Footprint(ps) == old(Footprint(ps))
  {
    for k := 0 to |ps|
      invariant forall j :: 0 <= j < |ps| ==> ps[j].chord.Repr == old(ps[j].chord.Repr)
      invariant Owned(ps)
      invariant forall j :: 0 <= j < |ps| ==>
                  ps[j].chord.model == if j < k then Transposed(vs[j].chord, semitones) else vs[j].chord
    {
      assert ps[k].chord.Repr <= old(Footprint(ps));
      TransposeEntry(ps, k, semitones);
    }
    forall o | o in Footprint(ps)
      ensures o in old(Footprint(ps))
    {
      var k :| 0 <= k < |ps| && o in ps[k].chord.Repr;
    }
    forall o | o in old(Footprint(ps))
      ensures o in Footprint(ps)
    {
      var k :| 0 <= k < |ps| && o in old(ps[k].chord.Repr);
    }
  }

  /**
   * `transpose_song_dict(chords_dict, semitones)`: every chord of the index
   * transposed once, in place, unless the shift is zero; the line numbers
   * and columns stay as they are.
   */
  method TransposeSongDict(index: map<nat, seq<Placement>>, semitones: int, ghost vs: map<nat, seq<Placed>>)
    requires IndexOwned(index) && IndexRepresents(index, vs)
    modifies IndexFootprint(index)
    ensures IndexOwned(index) && IndexRepresents(index, TransposeIndex(vs, semitones))
    ensures IndexFootprint(index) == old(IndexFootprint(index))
  {
    if semitones != 0 {
      var todo := index.Keys;
      while todo != {}
        invariant todo <= index.Keys
        invariant IndexOwned(index) && IndexFootprint(index) == old(IndexFootprint(index))
        invariant forall n :: n in index ==> Represents(index[n], if n in todo then vs[n] else TransposeLine(vs[n], semitones))
        decreases todo
      {
        var n :| n in todo;
        TransposeOneLine(index, n, semitones, vs[n]);
        todo := todo - {n};
      }
    }
  }

  /** One line of the index transposed; the other lines are untouched. */
  method TransposeOneLine(index: map<nat, seq<Placement>>, n: nat, semitones: int, ghost v: seq<Placed>)
    requires n in index && IndexOwned(index) && Represents(index[n], v)
    modifies Footprint(index[n])
    ensures IndexOwned(index) && IndexFootprint(index) == old(IndexFootprint(index))
    ensures Represents(index[n], TransposeLine(v, semitones))
    ensures forall m :: m in index && m != n ==> unchanged(ChordsOf(index[m]))
  {
    forall m | m in index
      ensures ChordsOf(index[m]) <= Footprint(index[m])
    {
      ChordsInFootprint(index[m]);
    }
    TransposeLineChords(index[n], semitones, v);
  }

  // ---------------------------------------------------------------------------
  // The overlay of transpose_song_lines (ctransposer.py:137-145)

  /**
   * `line_list[col + offset] = char` for each character of `text`: the line
   * with `text` written over it from column `col`, or nothing when a write
   * falls past the end of the line (the IndexError of a list assignment).
   */
  function WriteText(line: string, col: nat, text: string): (r: Option<string>)
    ensures r.None? <==> text != [] && col + |text| > |line|
    ensures r.Some? ==> |r.value| == |line|
    ensures r.Some? ==> forall j :: 0 <= j < |line| ==>
              r.value[j] == if col <= j < col + |text| then text[j - col] else line[j]
  {
    if text == [] then Some(line)
    else if col + |text| > |line| then None
    else Some(line[..col] + text + line[col + |text|..])
  }

  /** The chords of a line written over it, in order, each with its chord text. */
  function OverlayLine(line: string, vs: seq<Placed>): Option<string>
  {
    if vs == [] then Some(line)
    else
      match OverlayLine(line, vs[..|vs| - 1])
      case None => None
      case Some(l) => WriteText(l, vs[|vs| - 1].col, vs[|vs| - 1].chord.ChordText())
  }

  /** Every line of the index overlaid: nothing when one of them fails. */
  function OverlaySong(song: seq<string>, m: map<nat, seq<Placed>>): Option<seq<string>>
    requires forall n :: n in m ==> n < |song|
  {
    if exists n :: n in m && OverlayLine(song[n], m[n]).None? then None
    else Some(seq(|song|, i requires 0 <= i < |song| => if i in m then OverlayLine(song[i], m[i]).value else song[i]))
  }

  /** The overlay of a song fails exactly when the overlay of one of its chord lines does. */
  lemma OverlaySongEach(song: seq<string>, m: map<nat, seq<Placed>>)
    requires forall n :: n in m ==> n < |song|
    ensures OverlaySong(song, m).None? <==> exists n :: n in m && OverlayLine(song[n], m[n]).None?
    ensures OverlaySong(song, m).Some? ==>
              && |OverlaySong(song, m).value| == |song|
              && forall i :: 0 <= i < |song| ==>
                   OverlaySong(song, m).value[i] == if i in m then OverlayLine(song[i], m[i]).value else song[i]
  {
  }

  /** Why `transpose_song_lines` raises. */
  datatype SongError =
    | BadChord(error: ChordError) // a chord text of a chord line raises when parsed
    | PastEndOfLine               // IndexError: a new chord text runs past the end of its line

  /** What `transpose_song_lines(song, semitones)` returns, or why it raises. */
  function TransposedSong(song: seq<string>, semitones: int): Result<seq<string>, SongError>
  {
    match SongChords(song)
    case Failure(e) => Failure(BadChord(e))
    case Success(m) =>
      match OverlaySong(song, TransposeIndex(m, semitones))
      case None => Failure(PastEndOfLine)
      case Some(t) => Success(t)
  }

  /** `chord_text` written at `line_list[col + offset]`, one character at a time. */
  method WriteChord(buf: array<char>, col: nat, text: string) returns (ok: bool)
    modifies buf
    ensures ok <==> WriteText(old(buf[..]), col, text).Some?
    ensures ok ==> buf[..] == WriteText(old(buf[..]), col, text).value
  {
    ghost var line := buf[..];
    for offset := 0 to |text|
      invariant col + offset <= buf.Length || offset == 0
      invariant forall j :: 0 <= j < buf.Length ==>
                  buf[j] == if col <= j < col + offset then text[j - col] else line[j]
    {
      if col + offset >= buf.Length {
        return false;
      }
      buf[col + offset] := text[offset];
    }
    ok := text == [] || col + |text| <= buf.Length;
    assert ok ==> buf[..] == WriteText(line, col, text).value;
  }

  /** A line that fails for some of its chords fails for all of them. */
  lemma {:induction false} OverlayLineFailurePrefix(line: string, vs: seq<Placed>, k: nat)
    requires k <= |vs| && OverlayLine(line, vs[..k]).None?
    ensures OverlayLine(line, vs).None?
    decreases |vs| - k
  {
    if k < |vs| {
      assert vs[..k + 1][..k] == vs[..k];
      OverlayLineFailurePrefix(line, vs, k + 1);
    } else {
      assert vs[..k] == vs;
    }
  }

  /**
   * `line_list = list(line)`, every chord's `get_chord_text()` written over
   * it at its column, then `"".join(line_list)`.
   */
  method OverlayChords(line: string, ps: seq<Placement>, ghost vs: seq<Placed>) returns (r: Option<string>)
    requires Owned(ps) && Represents(ps, vs)
    ensures r == OverlayLine(line, vs)
  {
    var buf := new char[|line|](i requires 0 <= i < |line| => line[i]);
    for k := 0 to |ps|
      invariant OverlayLine(line, vs[..k]).Some? && buf[..] == OverlayLine(line, vs[..k]).value
    {
      assert vs[..k + 1][..k] == vs[..k];
      var text := ps[k].chord.GetChordText();
      var ok := WriteChord(buf, ps[k].col, text);
      if !ok {
        OverlayLineFailurePrefix(line, vs, k + 1);
        return None;
      }
    }
    assert vs[..|ps|] == vs;
    return Some(buf[..]);
  }

  /** The copy of the song once the lines in `done` have been overlaid. */
  ghost function Overlaid(song: seq<string>, m: map<nat, seq<Placed>>, done: set<nat>): (r: seq<string>)
    ensures |r| == |song|
  {
    seq(|song|, i requires 0 <= i < |song| =>
      if i in done && i in m && OverlayLine(song[i], m[i]).Some? then OverlayLine(song[i], m[i]).value else song[i])
  }

  /** Overlaying one more line changes that line of the copy and no other. */
  lemma OverlaidStep(song: seq<string>, m: map<nat, seq<Placed>>, done: set<nat>, n: nat)
    requires n < |song| && n in m && OverlayLine(song[n], m[n]).Some?
    ensures Overlaid(song, m, done + {n}) == Overlaid(song, m, done)[n := OverlayLine(song[n], m[n]).value]
  {
  }

  /** With every line overlaid and none failing, the copy is the overlay of the song. */
  lemma OverlaidAll(song: seq<string>, m: map<nat, seq<Placed>>)
    requires forall n :: n in m ==> n < |song| && OverlayLine(song[n], m[n]).Some?
    ensures OverlaySong(song, m) == Some(Overlaid(song, m, m.Keys))
  {
    OverlaySongEach(song, m);
    var whole := OverlaySong(song, m).value;
    assert forall i :: 0 <= i < |song| ==> whole[i] == Overlaid(song, m, m.Keys)[i];
    assert whole == Overlaid(song, m, m.Keys);
  }

  /**
   * One turn of the loop over `song_chords.keys()`: line `n` of the copy is
   * rebuilt with its chords written over it and put back in its place.
   */
  method OverlayIndexLine(song: seq<string>, out: seq<string>, index: map<nat, seq<Placement>>, n: nat,
                          ghost ts: map<nat, seq<Placed>>, ghost done: set<nat>)
    returns (r: Option<seq<string>>)
    requires (forall m :: m in ts ==> m < |song|) && IndexOwned(index) && IndexRepresents(index, ts)
    requires n in index && n !in done && out == Overlaid(song, ts, done)
    ensures IndexOwned(index) && IndexRepresents(index, ts)
    ensures r.None? ==> OverlaySong(song, ts) == None
    ensures r.Some? ==> OverlayLine(song[n], ts[n]).Some? && r.value == Overlaid(song, ts, done + {n})
  {
    assert forall o :: o in ChordsOfIndex(index) ==> allocated(o);
    assert forall o :: o in IndexFootprint(index) ==> allocated(o);
    var line := OverlayChords(out[n], index[n], ts[n]);
    if line.None? {
      OverlaySongEach(song, ts);
      return None;
    }
    OverlaidStep(song, ts, done, n);
    r := Some(out[n := line.value]);
  }

  /**
   * `transposed_song = song[:]` and the loop over `song_chords.keys()`: every
   * line of the index replaced in the copy by its overlay, or nothing when
   * one of them runs past the end of its line.
   */
  method OverlayIndex(song: seq<string>, index: map<nat, seq<Placement>>, ghost ts: map<nat, seq<Placed>>)
    returns (r: Option<seq<string>>)
    requires (forall n :: n in ts ==> n < |song|) && IndexOwned(index) && IndexRepresents(index, ts)
    ensures r == OverlaySong(song, ts)
  {
    var out := song;
    var todo := index.Keys;
    ghost var done: set<nat> := {};
    while todo != {}
      invariant todo !! done && todo + done == ts.Keys
      invariant IndexOwned(index) && IndexRepresents(index, ts)
      invariant forall n :: n in done ==> OverlayLine(song[n], ts[n]).Some?
      invariant out == Overlaid(song, ts, done)
      decreases todo
    {
      var n :| n in todo;
      var next := OverlayIndexLine(song, out, index, n, ts, done);
      if next.None? {
        return None;
      }
      out := next.value;
      done := done + {n};
      todo := todo - {n};
    }
    OverlaidAll(song, ts);
    return Some(out);
  }

  /**
   * `transpose_song_lines(song, semitones)` without its difficulty prints:
   * the chords of the song are collected and transposed, and each chord
   * line of a copy of the song is rewritten with the new chord texts.
   */
  method TransposeSongLines(song: seq<string>, semitones: int) returns (r: Result<seq<string>, SongError>)
    ensures r == TransposedSong(song, semitones)
  {
    var ok, index := GetChordsFromSong(song);
    if ok.Fail? {
      return Failure(BadChord(ok.error));
    }
    ghost var vs := SongChords(song).value;
    TransposeSongDict(index, semitones, vs);
    var out := OverlayIndex(song, index, TransposeIndex(vs, semitones));
    if out.None? {
      return Failure(PastEndOfLine);
    }
    r := Success(out.value);
  }
}
