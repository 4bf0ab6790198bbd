/**
 * The line-level helpers of ctransposer.py: deciding whether a line of a
 * song sheet holds chords (`is_chord_line`, ctransposer.py:20-46) and
 * cutting such a line into chords and the columns they start at
 * (`split_chord_line`, ctransposer.py:49-76).
 */
module ChordLines {
  import opened Wrappers
  import opened Text
  import opened Chords

  /**
   * Membership of one character in DEFAULT_CHORD_ROOTS (chord.py:7-8). The
   * list also holds `A#`, `C#` and the other sharps, which no single
   * character equals, so only the seven letters A to G match; `H` does not.
   */
  predicate IsRootLetter(c: char)
  {
    'A' <= c <= 'G'
  }

  /** The characters `is_chord_line` counts against a line when they start a word: code points 33 to 126. */
  predicate IsOrdinary(c: char)
  {
    33 <= c as int <= 126
  }

  /** ILLEGAL_CHORD_NAMES (chord.py:10): words that mark a heading rather than a chord line. */
  const IllegalNames: seq<string> := ["Chorus", "Bridge", "Capo"]

  /** `any(name in line for name in ILLEGAL_CHORD_NAMES)`, case-sensitive. */
  predicate HasIllegalName(line: string)
  {
    exists k :: 0 <= k < |IllegalNames| && Contains(line, IllegalNames[k])
  }

  // ---------------------------------------------------------------------------
  // is_chord_line (ctransposer.py:20-46)

  /** The two counters of `is_chord_line`. */
  datatype Tally = Tally(chordy: nat, nonChordy: nat)

  /**
   * How one character moves the counters, given the character before it: a
   * non-space after a space counts as chordy when its upper case is a root
   * letter, as non-chordy when it is other printable ASCII, and not at all
   * otherwise.
   */
  function Count(t: Tally, previous: char, c: char): Tally
  {
    if previous == ' ' && c != ' ' then
      if IsRootLetter(Upper(c)) then t.(chordy := t.chordy + 1)
      else if IsOrdinary(c) then t.(nonChordy := t.nonChordy + 1)
      else t
    else t
  }

  /** The counters once the loop has read `s`; before the first character `previous_char` is a space. */
  function Counted(s: string): Tally
  {
    if s == [] then Tally(0, 0)
    else Count(Counted(s[..|s| - 1]), if |s| == 1 then ' ' else s[|s| - 2], s[|s| - 1])
  }

  /** What `is_chord_line(line)` returns. */
  predicate ChordLine(line: string)
  {
    var t := Counted(line);
    t.chordy >= 1 + t.nonChordy * 2 && !HasIllegalName(line)
  }

  /** `is_chord_line(line)`, the counting loop and its verdict. */
  method IsChordLine(line: string) returns (b: bool)
    ensures b <==> ChordLine(line)
  {
    var chordy: nat, nonChordy: nat := 0, 0;
    var previous := ' ';
    var illegal := HasIllegalName(line);
    for i := 0 to |line|
      invariant Tally(chordy, nonChordy) == Counted(line[..i])
      invariant previous == if i == 0 then ' ' else line[i - 1]
    {
      var c := line[i];
      assert line[..i + 1][..i] == line[..i];
      if previous == ' ' && c != ' ' {
        if IsRootLetter(Upper(c)) {
          chordy := chordy + 1;
        } else if IsOrdinary(c) {
          nonChordy := nonChordy + 1;
        }
      }
      previous := c;
    }
    assert line[..|line|] == line;
    b := chordy >= 1 + nonChordy * 2 && !illegal;
  }

  // ---------------------------------------------------------------------------
  // split_chord_line (ctransposer.py:49-76)

  /** A chord's text on a line and the column it starts at. */
  datatype Token = Token(text: string, col: nat)

  /**
   * The chord texts of `line` from column `i` on: a chord starts at an upper
   * case A to G that is not already inside a chord and runs up to the next
   * space or the end of the line; every other character outside a chord is
   * skipped.
   */
  function TokensFrom(line: string, i: nat): seq<Token>
    requires i <= |line|
    decreases |line| - i
  {
    if i == |line| then []
    else if IsRootLetter(line[i]) then
      var run := UpTo(line[i..], ' ');
      [Token(run, i)] + TokensFrom(line, i + |run|)
    else TokensFrom(line, i + 1)
  }

  /** The chord texts of a whole line, with their columns. */
  function Tokens(line: string): seq<Token>
  {
    TokensFrom(line, 0)
  }

  /** A chord value and the column it starts at: an entry of `split_chord_line`'s result, as a value. */
  datatype Placed = Placed(chord: ChordValue, col: nat)

  /**
   * `Chord(text)` of each token, in order: the result holds every chord at
   * its column, or the error of the first text that raises.
   */
  function ParseAll(toks: seq<Token>): Result<seq<Placed>, ChordError>
  {
    if toks == [] then Success([])
    else
      match ParseAll(toks[..|toks| - 1])
      case Failure(e) => Failure(e)
      case Success(ps) =>
        var t := toks[|toks| - 1];
        match Parse(t.text)
        case Failure(e) => Failure(e)
        case Success(c) => Success(ps + [Placed(c, t.col)])
  }

  /** What `split_chord_line(line)` returns, as values, or the error it raises. */
  function SplitLine(line: string): Result<seq<Placed>, ChordError>
  {
    ParseAll(Tokens(line))
  }

  /** One entry of `split_chord_line`'s result: `[chord_obj, column]`. */
  datatype Placement = Placement(chord: Chord, col: nat)

  /** The chord objects of a list of entries. */
  function ChordsOf(ps: seq<Placement>): set<Chord>
  {
    set k | 0 <= k < |ps| :: ps[k].chord
  }

  /** Every object the chords of `ps` own. */
  ghost function Footprint(ps: seq<Placement>): set<object>
    reads ChordsOf(ps)
  {
    set k, o | 0 <= k < |ps| && o in ps[k].chord.Repr :: o
  }

  /** Every chord of `ps` is a constructed chord, and no two share an object. */
  ghost predicate Owned(ps: seq<Placement>)
    reads ChordsOf(ps), Footprint(ps)
  {
    && (forall k :: 0 <= k < |ps| ==> ps[k].chord.Constructed())
    && (forall j, k :: 0 <= j < k < |ps| ==> ps[j].chord.Repr !! ps[k].chord.Repr)
  }

  /** The chord objects of `ps` hold the values of `vs`, at the same columns. */
  ghost predicate Represents(ps: seq<Placement>, vs: seq<Placed>)
    reads ChordsOf(ps)
  {
    |ps| == |vs| && forall k :: 0 <= k < |ps| ==> ps[k].col == vs[k].col && ps[k].chord.model == vs[k].chord
  }

  /** The entry for one more token: what the chord built from it must hold. */
  lemma ParseAllSnoc(toks: seq<Token>, t: Token)
    requires ParseAll(toks).Success?
    ensures ParseAll(toks + [t]).Success? <==> Parse(t.text).Success?
    ensures Parse(t.text).Failure? ==> ParseAll(toks + [t]).error == Parse(t.text).error
    ensures Parse(t.text).Success? ==> ParseAll(toks + [t]).value == ParseAll(toks).value + [Placed(Parse(t.text).value, t.col)]
  {
    assert (toks + [t])[..|toks|] == toks;
  }

  /** Once a prefix raises, the whole list raises the same error. */
  lemma {:induction false} ParseAllFailurePrefix(a: seq<Token>, b: seq<Token>)
    requires ParseAll(a).Failure?
    ensures ParseAll(a + b) == ParseAll(a)
    decreases |b|
  {
    if b == [] {
      assert a + b == a;
    } else {
      assert (a + b)[..|a + b| - 1] == a + b[..|b| - 1];
      ParseAllFailurePrefix(a, b[..|b| - 1]);
    }
  }

  /**
   * Where the scan of `split_chord_line` stands before column `i`: the
   * tokens `done` are behind it, and either no chord is open and the rest
   * of the line yields the remaining tokens, or the chord `text` opened at
   * `col` is still running and ends at the next space.
   */
  ghost predicate Scanned(line: string, i: nat, done: seq<Token>, text: string, col: nat)
    requires i <= |line|
  {
    if text == [] then Tokens(line) == done + TokensFrom(line, i)
    else
      && col < i && text == line[col..i]
      && var run := UpTo(line[i..], ' ');
         Tokens(line) == done + [Token(text + run, col)] + TokensFrom(line, i + |run|)
  }

  /** Outside a chord, a character other than a root letter is skipped. */
  lemma ScanSkip(line: string, i: nat, done: seq<Token>)
    requires i < |line| && !IsRootLetter(line[i]) && Scanned(line, i, done, [], 0)
    ensures Scanned(line, i + 1, done, [], 0)
  {
  }

  /** Outside a chord, a root letter opens one. */
  lemma ScanOpen(line: string, i: nat, done: seq<Token>)
    requires i < |line| && IsRootLetter(line[i]) && Scanned(line, i, done, [], 0)
    ensures Scanned(line, i + 1, done, [line[i]], i)
  {
    RunStep(line, i);
    assert line[i..i + 1] == [line[i]];
  }

  /** Inside a chord, a character other than a space joins it. */
  lemma ScanExtend(line: string, i: nat, done: seq<Token>, text: string, col: nat)
    requires i < |line| && line[i] != ' ' && text != [] && Scanned(line, i, done, text, col)
    ensures Scanned(line, i + 1, done, text + [line[i]], col)
  {
    RunStep(line, i);
    assert line[col..i + 1] == line[col..i] + [line[i]];
    assert text + UpTo(line[i..], ' ') == (text + [line[i]]) + UpTo(line[i + 1..], ' ');
  }

  /** Inside a chord, a space closes it. */
  lemma ScanClose(line: string, i: nat, done: seq<Token>, text: string, col: nat)
    requires i < |line| && line[i] == ' ' && text != [] && Scanned(line, i, done, text, col)
    ensures Scanned(line, i + 1, done + [Token(text, col)], [], 0)
  {
    RunAtSpace(line, i);
    assert text + [] == text;
  }

  /** At the end of the line an open chord is the last token. */
  lemma ScanEnd(line: string, done: seq<Token>, text: string, col: nat)
    requires Scanned(line, |line|, done, text, col)
    ensures text == [] ==> Tokens(line) == done
    ensures text != [] ==> Tokens(line) == done + [Token(text, col)]
  {
    if text != [] {
      RunAtSpace(line, |line|);
      assert text + [] == text;
    }
  }

  /** A constructed chord that shares no object with the others can join them. */
  lemma OwnedAppend(ps: seq<Placement>, p: Placement)
    requires Owned(ps) && p.chord.Constructed() && p.chord.Repr !! Footprint(ps)
    ensures Owned(ps + [p])
    ensures Footprint(ps + [p]) <= Footprint(ps) + p.chord.Repr
  {
    var qs := ps + [p];
    forall j, k | 0 <= j < k < |qs|
      ensures qs[j].chord.Repr !! qs[k].chord.Repr
    {
      if k == |ps| {
        assert qs[j] == ps[j];
        assert forall o :: o in ps[j].chord.Repr ==> o in Footprint(ps);
      }
    }
    forall o | o in Footprint(qs)
      ensures o in Footprint(ps) || o in p.chord.Repr
    {
      var k :| 0 <= k < |qs| && o in qs[k].chord.Repr;
      if k < |ps| {
        assert qs[k] == ps[k];
      }
    }
  }

  /** One more chord at its column represents one more value. */
  lemma RepresentsAppend(ps: seq<Placement>, vs: seq<Placed>, p: Placement, v: Placed)
    requires Represents(ps, vs) && p.col == v.col && p.chord.model == v.chord
    ensures Represents(ps + [p], vs + [v])
  {
  }

  /**
   * `chords.append([chord.Chord(chord_text), chord_text_col])`: the chord is
   * built from the token's text, or the error it raises is passed on.
   */
  method AddChord(chords: seq<Placement>, ghost done: seq<Token>, t: Token) returns (r: Result<seq<Placement>, ChordError>)
    requires ParseAll(done).Success? && Represents(chords, ParseAll(done).value) && Owned(chords)
    ensures r.Success? <==> ParseAll(done + [t]).Success?
    ensures r.Failure? ==> r.error == ParseAll(done + [t]).error
    ensures r.Success? ==> Represents(r.value, ParseAll(done + [t]).value) && Owned(r.value)
    ensures r.Success? ==> Footprint(r.value) <= old(Footprint(chords)) + r.value[|chords|].chord.Repr
    ensures r.Success? ==> fresh(r.value[|chords|].chord.Repr)
    ensures Owned(chords) && Footprint(chords) == old(Footprint(chords))
  {
    ParseAllSnoc(done, t);
    var c := Chord.FromText(t.text);
    if c.Failure? {
      return Failure(c.error);
    }
    var p := Placement(c.value, t.col);
    assert c.value.Repr !! Footprint(chords);
    OwnedAppend(chords, p);
    RepresentsAppend(chords, ParseAll(done).value, p, Placed(Parse(t.text).value, t.col));
    r := Success(chords + [p]);
    assert r.value[|chords|] == p;
  }

  /** A character that is not a root letter outside a chord is skipped. */
  lemma TokensFromSkip(line: string, i: nat)
    requires i < |line| && !IsRootLetter(line[i])
    ensures TokensFrom(line, i) == TokensFrom(line, i + 1)
  {
  }

  /** The run up to the next space, one character at a time. */
  lemma RunStep(line: string, i: nat)
    requires i < |line| && line[i] != ' '
    ensures UpTo(line[i..], ' ') == [line[i]] + UpTo(line[i + 1..], ' ')
  {
    assert line[i..][1..] == line[i + 1..];
  }

  /** At a space the run is empty. */
  lemma RunAtSpace(line: string, i: nat)
    requires i <= |line| && (i == |line| || line[i] == ' ')
    ensures UpTo(line[i..], ' ') == []
  {
  }

  /** `split_chord_line(c_line)`: the chords of the line with their columns, or the error of the first chord text that raises. */
  method SplitChordLine(line: string) returns (ok: Outcome<ChordError>, chords: seq<Placement>)
    ensures ok.Pass? <==> SplitLine(line).Success?
    ensures ok.Fail? ==> ok.error == SplitLine(line).error
    ensures ok.Pass? ==> Represents(chords, SplitLine(line).value)
    ensures Owned(chords) && fresh(Footprint(chords))
  {
    chords := [];
    var chordText := "";
    var col: nat := 0;
    ghost var done: seq<Token> := [];
    ghost var owned: set<object> := {};
    for i := 0 to |line|
      invariant ParseAll(done).Success? && Represents(chords, ParseAll(done).value)
      invariant Owned(chords) && Footprint(chords) <= owned && fresh(owned)
      invariant Scanned(line, i, done, chordText, col)
    {
      var c := line[i];
      if chordText != "" {
        if c == ' ' {
          ScanClose(line, i, done, chordText, col);
          var r := AddChord(chords, done, Token(chordText, col));
          if r.Failure? {
            ParseAllFailurePrefix(done + [Token(chordText, col)], TokensFrom(line, i + 1));
            return Fail(r.error), chords;
          }
          owned := owned + r.value[|chords|].chord.Repr;
          chords := r.value;
          done := done + [Token(chordText, col)];
          chordText := "";
          col := 0;
        } else {
          ScanExtend(line, i, done, chordText, col);
          chordText := chordText + [c];
        }
      } else if IsRootLetter(c) {
        ScanOpen(line, i, done);
        col := i;
        chordText := [c];
      } else {
        ScanSkip(line, i, done);
      }
    }
    ScanEnd(line, done, chordText, col);
    if chordText != "" {
      var r := AddChord(chords, done, Token(chordText, col));
      if r.Failure? {
        return Fail(r.error), chords;
      }
      owned := owned + r.value[|chords|].chord.Repr;
      chords := r.value;
    }
    ok := Pass;
  }
}
