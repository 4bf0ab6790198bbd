/**
 * What ctransposer.py promises about single lines, proved of the functions
 * that specify `is_chord_line` and `split_chord_line`: the counting loop
 * agrees with a reading of the line word by word, blank lines are never
 * chord lines, and the chord texts found are exactly the runs that start at
 * a root letter, in order, each up to the next space.
 */
module ChordLineFacts {
  import opened Wrappers
  import opened Text
  import opened Chords
  import opened ChordLines

  // ---------------------------------------------------------------------------
  // is_chord_line read word by word (ctransposer.py:20-46)

  /** `s.split(' ')`: the pieces between single spaces, empty ones included. */
  function SplitSpaces(s: string): (ws: seq<string>)
    ensures |ws| > 0
    decreases |s|
  {
    var w := UpTo(s, ' ');
    if |w| == |s| then [s] else [w] + SplitSpaces(s[|w| + 1..])
  }

  function Plus(a: Tally, b: Tally): Tally
  {
    Tally(a.chordy + b.chordy, a.nonChordy + b.nonChordy)
  }

  /** How a word counts: by its first character, as the first character after a space. */
  function FirstTally(w: string): Tally
  {
    if w == [] then Tally(0, 0) else Count(Tally(0, 0), ' ', w[0])
  }

  /** The counts of the words, added up. */
  function WordTally(ws: seq<string>): Tally
  {
    if ws == [] then Tally(0, 0) else Plus(FirstTally(ws[0]), WordTally(ws[1..]))
  }

  /** Only the first character of a word without spaces is counted. */
  lemma {:induction false} CountedWord(w: string)
    requires ' ' !in w
    ensures Counted(w) == FirstTally(w)
  {
    if |w| > 1 {
      var p := w[..|w| - 1];
      assert ' ' !in p by {
        assert forall j :: 0 <= j < |p| ==> p[j] == w[j];
      }
      CountedWord(p);
      assert w[|w| - 2] == p[|p| - 1];
    }
  }

  /** The counters after one more character. */
  lemma CountedSnoc(s: string, c: char)
    ensures Counted(s + [c]) == Count(Counted(s), if s == [] then ' ' else s[|s| - 1], c)
  {
    assert (s + [c])[..|s|] == s;
  }

  lemma CountPlus(x: Tally, y: Tally, q: char, c: char)
    ensures Count(Plus(x, y), q, c) == Plus(x, Count(y, q, c))
  {
  }

  /** The counts of two parts joined by a space add up. */
  lemma {:induction false} CountedSplit(a: string, b: string)
    ensures Counted(a + [' '] + b) == Plus(Counted(a), Counted(b))
    decreases |b|
  {
    if b == [] {
      assert a + [' '] + b == a + [' '];
      CountedSnoc(a, ' ');
      assert Counted(b) == Tally(0, 0);
    } else {
      var p := b[..|b| - 1];
      var c := b[|b| - 1];
      assert b == p + [c];
      var ap := a + [' '] + p;
      assert a + [' '] + b == ap + [c];
      CountedSnoc(ap, c);
      CountedSnoc(p, c);
      var q := if p == [] then ' ' else p[|p| - 1];
      assert (if ap == [] then ' ' else ap[|ap| - 1]) == q;
      CountedSplit(a, p);
      CountPlus(Counted(a), Counted(p), q, c);
    }
  }

  /**
   * The loop's counters are the counts of the first characters of the
   * pieces of `line.split(' ')`: the first letter after each space, as the
   * docstring of `is_chord_line` puts it.
   */
  lemma {:induction false} CountedByWords(line: string)
    ensures Counted(line) == WordTally(SplitSpaces(line))
    decreases |line|
  {
    var w := UpTo(line, ' ');
    UpToIsPrefix(line, ' ');
    if |w| == |line| {
      assert w == line;
      CountedWord(line);
    } else {
      var rest := line[|w| + 1..];
      assert line == w + [' '] + rest;
      CountedSplit(w, rest);
      CountedWord(w);
      CountedByWords(rest);
    }
  }

  /** `is_chord_line` by words: enough pieces start with a root letter, and no heading word appears. */
  lemma ChordLineByWords(line: string)
    ensures var t := WordTally(SplitSpaces(line));
            ChordLine(line) <==> t.chordy >= 1 + 2 * t.nonChordy && !HasIllegalName(line)
  {
    CountedByWords(line);
  }

  /** A line of spaces, or an empty one, counts nothing. */
  lemma {:induction false} BlankLineCountsNothing(line: string)
    requires forall i :: 0 <= i < |line| ==> line[i] == ' '
    ensures Counted(line) == Tally(0, 0)
  {
    if line != [] {
      BlankLineCountsNothing(line[..|line| - 1]);
    }
  }

  /** An empty line, or one of spaces only, is never a chord line. */
  lemma BlankLineIsNotChordLine(line: string)
    requires forall i :: 0 <= i < |line| ==> line[i] == ' '
    ensures !ChordLine(line)
  {
    BlankLineCountsNothing(line);
  }

  /** A line naming a heading (`Chorus`, `Bridge`, `Capo`) is never a chord line, however many chords it holds. */
  lemma HeadingIsNotChordLine(line: string, k: int)
    requires 0 <= k < |IllegalNames| && Contains(line, IllegalNames[k])
    ensures !ChordLine(line)
  {
  }

  // ---------------------------------------------------------------------------
  // split_chord_line (ctransposer.py:49-76)

  /**
   * Token `t` is a chord text of `line`: it starts at an upper case A to G,
   * is the text of the line from there, holds no space, and ends at a space
   * or at the end of the line.
   */
  predicate TokenAt(line: string, t: Token)
  {
    && t.col < |line| && IsRootLetter(line[t.col])
    && t.col + |t.text| <= |line| && t.text == line[t.col..t.col + |t.text|]
    && t.text != [] && ' ' !in t.text
    && (t.col + |t.text| == |line| || line[t.col + |t.text|] == ' ')
  }

  /** The run from a root letter is a token of the line. */
  lemma RunIsToken(line: string, i: nat)
    requires i < |line| && IsRootLetter(line[i])
    ensures TokenAt(line, Token(UpTo(line[i..], ' '), i))
  {
    var s := line[i..];
    UpToIsPrefix(s, ' ');
    var run := UpTo(s, ' ');
    assert s[..|run|] == line[i..i + |run|];
    if |run| < |s| {
      assert s[|run|] == line[i + |run|];
    }
  }

  /** Every token of `ts` is a token of `line` at or after column `i`. */
  predicate TokensAt(line: string, i: nat, ts: seq<Token>)
  {
    forall k :: 0 <= k < |ts| ==> i <= ts[k].col && TokenAt(line, ts[k])
  }

  /** Each token of `ts` ends before the next begins. */
  predicate TokensApart(ts: seq<Token>)
  {
    forall j, k :: 0 <= j < k < |ts| ==> ts[j].col + |ts[j].text| < ts[k].col
  }

  /** The tokens from column `i` on are tokens of the line, all at or after `i`. */
  lemma {:induction false} TokensFromAt(line: string, i: nat)
    requires i <= |line|
    ensures TokensAt(line, i, TokensFrom(line, i))
    decreases |line| - i
  {
    var ts := TokensFrom(line, i);
    if i < |line| {
      if IsRootLetter(line[i]) {
        var run := UpTo(line[i..], ' ');
        RunIsToken(line, i);
        var m := i + |run|;
        var rest := TokensFrom(line, m);
        assert ts == [Token(run, i)] + rest;
        TokensFromAt(line, m);
        assert TokensAt(line, m, rest);
        forall k | 0 <= k < |ts|
          ensures i <= ts[k].col && TokenAt(line, ts[k])
        {
          if k > 0 {
            assert ts[k] == rest[k - 1];
          }
        }
      } else {
        assert ts == TokensFrom(line, i + 1);
        TokensFromAt(line, i + 1);
        assert TokensAt(line, i + 1, ts);
      }
    }
  }

  /** A token that ends before column `b` stays apart from tokens at or after `b`. */
  lemma ApartCons(line: string, t: Token, rest: seq<Token>, b: nat)
    requires TokensApart(rest) && TokensAt(line, b, rest) && t.col + |t.text| < b
    ensures TokensApart([t] + rest)
  {
    var ts := [t] + rest;
    forall j, k | 0 <= j < k < |ts|
      ensures ts[j].col + |ts[j].text| < ts[k].col
    {
      assert ts[k] == rest[k - 1];
      if j > 0 {
        assert ts[j] == rest[j - 1];
      }
    }
  }

  /** Each token from column `i` on ends before the next begins, with a space between them. */
  lemma {:induction false} TokensFromOrdered(line: string, i: nat)
    requires i <= |line|
    ensures TokensApart(TokensFrom(line, i))
    decreases |line| - i
  {
    var ts := TokensFrom(line, i);
    if i < |line| {
      if IsRootLetter(line[i]) {
        var run := UpTo(line[i..], ' ');
        var m := i + |run|;
        var rest := TokensFrom(line, m);
        assert ts == [Token(run, i)] + rest;
        if m < |line| {
          RunIsToken(line, i);
          assert !IsRootLetter(line[m]);
          assert rest == TokensFrom(line, m + 1);
          TokensFromAt(line, m + 1);
          TokensFromOrdered(line, m + 1);
          ApartCons(line, Token(run, i), rest, m + 1);
        } else {
          assert rest == [];
        }
      } else {
        assert ts == TokensFrom(line, i + 1);
        TokensFromOrdered(line, i + 1);
      }
    }
  }

  /**
   * The tokens from column `i` on are tokens of the line, all at or after
   * `i`, in order, and each one ends before the next begins, with a space
   * between them.
   */
  lemma TokensFromShape(line: string, i: nat)
    requires i <= |line|
    ensures var ts := TokensFrom(line, i);
            && (forall k :: 0 <= k < |ts| ==> i <= ts[k].col && TokenAt(line, ts[k]))
            && (forall j, k :: 0 <= j < k < |ts| ==> ts[j].col + |ts[j].text| < ts[k].col)
  {
    TokensFromAt(line, i);
    TokensFromOrdered(line, i);
  }

  /**
   * Every upper case A to G from column `i` on lies inside one of the tokens
   * from `i`: no chord start is missed.
   */
  lemma {:induction false} TokensFromCover(line: string, i: nat, p: nat)
    requires i <= p < |line| && IsRootLetter(line[p])
    ensures var ts := TokensFrom(line, i);
            exists k :: 0 <= k < |ts| && ts[k].col <= p < ts[k].col + |ts[k].text|
    decreases |line| - i
  {
    var ts := TokensFrom(line, i);
    if IsRootLetter(line[i]) {
      var run := UpTo(line[i..], ' ');
      if p < i + |run| {
        assert ts[0].col <= p < ts[0].col + |ts[0].text|;
      } else {
        TokensFromCover(line, i + |run|, p);
        var rest := TokensFrom(line, i + |run|);
        assert ts == [Token(run, i)] + rest;
        var k :| 0 <= k < |rest| && rest[k].col <= p < rest[k].col + |rest[k].text|;
        assert ts[k + 1] == rest[k];
      }
    } else {
      assert p != i;
      assert ts == TokensFrom(line, i + 1);
      TokensFromCover(line, i + 1, p);
      var k :| 0 <= k < |ts| && ts[k].col <= p < ts[k].col + |ts[k].text|;
      assert TokensFrom(line, i) == ts;
    }
  }

  /**
   * The chord texts `split_chord_line` cuts out of a line: each starts at
   * an upper case A to G and is the maximal run from there up to the next
   * space or the end of the line; the columns strictly increase, with a
   * space between one chord and the next; and every upper case A to G of
   * the line lies inside one of them.
   */
  lemma TokensOfLine(line: string)
    ensures var ts := Tokens(line);
            && (forall k :: 0 <= k < |ts| ==> TokenAt(line, ts[k]))
            && (forall j, k :: 0 <= j < k < |ts| ==> ts[j].col + |ts[j].text| < ts[k].col)
            && (forall p :: 0 <= p < |line| && IsRootLetter(line[p]) ==>
                  exists k :: 0 <= k < |ts| && ts[k].col <= p < ts[k].col + |ts[k].text|)
  {
    var ts := Tokens(line);
    TokensFromShape(line, 0);
    forall p | 0 <= p < |line| && IsRootLetter(line[p])
      ensures exists k :: 0 <= k < |ts| && ts[k].col <= p < ts[k].col + |ts[k].text|
    {
      TokensFromCover(line, 0, p);
    }
  }

  /** The chords of a line are `Chord(text)` of its tokens, in order and at their columns, when every text parses. */
  lemma {:induction false} ParseAllValues(toks: seq<Token>)
    ensures var r := ParseAll(toks);
            && (r.Success? <==> forall k :: 0 <= k < |toks| ==> Parse(toks[k].text).Success?)
            && (r.Success? ==> |r.value| == |toks| && forall k :: 0 <= k < |toks| ==>
                  r.value[k] == Placed(Parse(toks[k].text).value, toks[k].col))
  {
    if toks != [] {
      var init := toks[..|toks| - 1];
      var t := toks[|toks| - 1];
      ParseAllValues(init);
      assert forall k :: 0 <= k < |init| ==> init[k] == toks[k];
      assert toks == init + [t];
      if ParseAll(init).Success? {
        ParseAllSnoc(init, t);
      }
    }
  }

  /** A line that raises does so with the error of its first text that raises. */
  lemma {:induction false} ParseAllFirstFailure(toks: seq<Token>)
    requires ParseAll(toks).Failure?
    ensures exists k :: 0 <= k < |toks| && Parse(toks[k].text) == Failure(ParseAll(toks).error)
                        && forall j :: 0 <= j < k ==> Parse(toks[j].text).Success?
  {
    var init := toks[..|toks| - 1];
    var t := toks[|toks| - 1];
    assert toks == init + [t];
    assert forall k :: 0 <= k < |init| ==> init[k] == toks[k];
    if ParseAll(init).Failure? {
      ParseAllFirstFailure(init);
      var k :| 0 <= k < |init| && Parse(init[k].text) == Failure(ParseAll(init).error)
               && forall j :: 0 <= j < k ==> Parse(init[j].text).Success?;
      assert ParseAll(toks) == ParseAll(init);
      assert Parse(toks[k].text) == Failure(ParseAll(toks).error);
    } else {
      ParseAllValues(init);
      ParseAllSnoc(init, t);
      assert Parse(toks[|init|].text) == Failure(ParseAll(toks).error);
    }
  }

  /**
   * The chords of a line are `Chord(text)` of its tokens, in order and at
   * their columns; the line raises exactly when one of its texts does, and
   * then with the error of the first.
   */
  lemma ParseAllEach(toks: seq<Token>)
    ensures var r := ParseAll(toks);
            && (r.Success? <==> forall k :: 0 <= k < |toks| ==> Parse(toks[k].text).Success?)
            && (r.Success? ==> |r.value| == |toks| && forall k :: 0 <= k < |toks| ==>
                  r.value[k] == Placed(Parse(toks[k].text).value, toks[k].col))
            && (r.Failure? ==> exists k :: 0 <= k < |toks| && Parse(toks[k].text) == Failure(r.error)
                                           && (forall j :: 0 <= j < k ==> Parse(toks[j].text).Success?))
  {
    ParseAllValues(toks);
    if ParseAll(toks).Failure? {
      ParseAllFirstFailure(toks);
    }
  }
}
