/**
 * What chord.py promises about its chords, proved of the functions that
 * specify them: transposition is an octave-periodic action of the integers
 * that a valid chord undoes by moving back, setup from an index follows
 * SCALE_MAP, a parsed root and suffix come back out as written, and the
 * expectations of tests/test_chord.py.
 */
module ChordFacts {
  import opened Wrappers
  import opened Pitch
  import opened Text
  import opened Chords

  /** The chord and every chord under it are valid. */
  predicate AllValid(c: ChordValue)
  {
    c.isValid && (c.subChord.Some? ==> AllValid(c.subChord.value))
  }

  /** No `#` and no `b`: a suffix the parse loop keeps as written. */
  predicate NoAccidentals(s: string)
  {
    forall i :: 0 <= i < |s| ==> !IsAccidental(s[i])
  }

  // ---------------------------------------------------------------------------
  // Transposition (chord.py:184-197)

  /** Transposing by `a` and then by `b` is transposing by `a + b`, sub-chords included. */
  lemma {:induction false} TransposedCompose(c: ChordValue, a: int, b: int)
    ensures Transposed(Transposed(c, a), b) == Transposed(c, a + b)
  {
    TransposedIndexCompose(c.index, a, b);
    if c.subChord.Some? {
      TransposedCompose(c.subChord.value, a, b);
    }
  }

  /** Transposing a chord whose parts are all valid by zero changes nothing. */
  lemma {:induction false} TransposedZero(c: ChordValue)
    requires WellFormed(c) && AllValid(c)
    ensures Transposed(c, 0) == c
  {
    TransposedIndexZero(c.index);
    if c.subChord.Some? {
      TransposedZero(c.subChord.value);
    }
  }

  /** Transposing a valid chord by `s` and then by `-s` restores it: index, spellings, suffix and sub-chord. */
  lemma TransposedRoundTrip(c: ChordValue, s: int)
    requires WellFormed(c) && AllValid(c)
    ensures Transposed(Transposed(c, s), -s) == c
    ensures Transposed(Transposed(c, s), -s).ChordText() == c.ChordText()
  {
    TransposedCompose(c, s, -s);
    TransposedZero(c);
  }

  /** A whole octave more is the same transposition. */
  lemma {:induction false} TransposedPeriodic(c: ChordValue, s: int)
    ensures Transposed(c, s + SemitonesInOctave) == Transposed(c, s)
  {
    TransposedIndexPeriodic(c.index, s);
    if c.subChord.Some? {
      TransposedPeriodic(c.subChord.value, s);
    }
  }

  /** Transposing makes every part valid, even an invalid chord or sub-chord starting from index 0. */
  lemma {:induction false} TransposedAllValid(c: ChordValue, s: int)
    ensures AllValid(Transposed(c, s))
  {
    if c.subChord.Some? {
      TransposedAllValid(c.subChord.value, s);
    }
  }

  /** The transposed chord is named by the table at the moved index and keeps its suffix text after the root. */
  lemma {:induction false} TransposedNames(c: ChordValue, s: int)
    ensures var r := Transposed(c, s);
            var i := TransposedIndex(c.index, s);
            && r.index == i && r.sharpName == SharpOf(i) && r.flatName == FlatOf(i)
            && r.ChordText() == SharpOf(i) + r.SuffixText()
            && r.FlatText() == FlatOf(i) + r.SuffixText()
            && (c.subChord.None? ==> r.SuffixText() == c.suffixes)
  {
  }

  /**
   * An invalid sub-chord (the blank chord, index 0) is moved too: it becomes
   * valid at `TransposedIndex(0, s)`, so a shift of zero, or a shift and
   * its inverse, do not give the chord back.
   */
  lemma InvalidSubChordMoves(c: ChordValue, s: int)
    requires c.subChord == Some(Blank)
    ensures Transposed(c, s).subChord == Some(Transposed(Blank, s))
    ensures Transposed(Blank, s).isValid && Transposed(Blank, s).index == TransposedIndex(0, s)
    ensures Transposed(c, 0) != c
    ensures Transposed(Transposed(c, s), -s) == Transposed(c, 0) != c
  {
    TransposedCompose(c, s, -s);
    assert TransposedIndex(0, 0) == SemitonesInOctave;
  }

  // ---------------------------------------------------------------------------
  // Setup from an index (chord.py:93-108)

  /** An index outside SCALE_MAP leaves every attribute as it was. */
  lemma IndexSetupOutOfRange(c: ChordValue, i: int, sfx: string)
    requires i !in ScaleMap
    ensures IndexSetup(c, i, sfx) == Success(c)
    ensures Make(i, sfx) == Success(Blank) && !Make(i, sfx).value.isValid
  {
  }

  /** An index of SCALE_MAP and a suffix without `/` give the table's spellings and a valid chord. */
  lemma MakeInRange(i: int, sfx: string)
    requires i in ScaleMap && '/' !in sfx
    ensures Make(i, sfx) == Success(ChordValue(i, SharpOf(i), FlatOf(i), sfx, None, true))
    ensures Make(i, sfx).value.ChordText() == SharpOf(i) + sfx
    ensures Make(i, sfx).value.FlatText() == FlatOf(i) + sfx
  {
    IndexSetupStep(Blank, i, sfx);
    var c := ChordValue(i, SharpOf(i), FlatOf(i), sfx, None, true);
    assert c.SuffixText() == sfx;
  }

  /** A suffix with `/` keeps the part before it and fails exactly as parsing the part after it does. */
  lemma MakeWithSubChord(i: int, sfx: string)
    requires i in ScaleMap && '/' in sfx
    ensures var before := UpTo(sfx, '/');
            var sub := Parse(UpTo(sfx[|before| + 1..], '/'));
            && (Make(i, sfx).Success? <==> sub.Success?)
            && (sub.Failure? ==> Make(i, sfx).error == sub.error)
            && (sub.Success? ==> Make(i, sfx).value == ChordValue(i, SharpOf(i), FlatOf(i), before, Some(sub.value), true))
  {
    var named := Blank.(index := i, sharpName := SharpOf(i), flatName := FlatOf(i));
    IndexSetupStep(Blank, i, sfx);
    SuffixSetupSlash(named, sfx);
  }

  /** `_process_suffixes` with a `/`: the part before it is the suffix and the part after it, up to a second `/`, is parsed as the sub-chord. */
  lemma SuffixSetupSlash(c: ChordValue, sfx: string)
    requires '/' in sfx
    ensures var before := UpTo(sfx, '/');
            var sub := Parse(UpTo(sfx[|before| + 1..], '/'));
            && (sub.Success? ==> SuffixSetup(c, sfx) == Success(c.(suffixes := before, subChord := Some(sub.value))))
            && (sub.Failure? ==> SuffixSetup(c, sfx) == Failure(sub.error))
  {
  }

  /** With the suffix `before + "/" + sub`, the suffix is `before` and `sub` alone is parsed as the sub-chord. */
  lemma MakeWithSlash(i: int, before: string, sub: string)
    requires i in ScaleMap && '/' !in before && '/' !in sub
    ensures var p := Parse(sub);
            && (Make(i, before + "/" + sub).Success? <==> p.Success?)
            && (p.Failure? ==> Make(i, before + "/" + sub).error == p.error)
            && (p.Success? ==> Make(i, before + "/" + sub).value == ChordValue(i, SharpOf(i), FlatOf(i), before, Some(p.value), true))
  {
    var sfx := before + "/" + sub;
    assert sfx == before + ['/'] + sub;
    assert sfx[|before|] == '/';
    UpToFirst(before, '/', sub);
    assert sfx[|before| + 1..] == sub;
    UpToAbsent(sub, '/');
    MakeWithSubChord(i, sfx);
  }

  // ---------------------------------------------------------------------------
  // Setup from text (chord.py:110-153)

  /** `WithoutAccidentals` distributes over concatenation. */
  lemma {:induction false} WithoutAccidentalsAppend(a: string, b: string)
    ensures WithoutAccidentals(a + b) == WithoutAccidentals(a) + WithoutAccidentals(b)
    decreases |b|
  {
    if b == [] {
      assert a + b == a;
    } else {
      assert (a + b)[..|a + b| - 1] == a + b[..|b| - 1];
      WithoutAccidentalsAppend(a, b[..|b| - 1]);
    }
  }

  /** A leading `/` is kept. */
  lemma SlashKeeps(s: string)
    ensures WithoutAccidentals("/" + s) == "/" + WithoutAccidentals(s)
  {
    WithoutAccidentalsAppend("/", s);
    assert "/"[..0] == [];
  }

  /** A text without `#` and `b` is its own suffix. */
  lemma {:induction false} WithoutAccidentalsKeeps(s: string)
    requires NoAccidentals(s)
    ensures WithoutAccidentals(s) == s
  {
    if s != [] {
      WithoutAccidentalsKeeps(s[..|s| - 1]);
    }
  }

  /** The parse loop keeps exactly the characters other than `#` and `b`, as many times as they occur, and drops every `#` and `b`. */
  lemma {:induction false} WithoutAccidentalsFilters(s: string)
    ensures NoAccidentals(WithoutAccidentals(s))
    ensures multiset(WithoutAccidentals(s)) <= multiset(s)
    ensures forall c :: !IsAccidental(c) ==> multiset(WithoutAccidentals(s))[c] == multiset(s)[c]
  {
    if s != [] {
      var p := s[..|s| - 1];
      var x := s[|s| - 1];
      var kept: string := if IsAccidental(x) then [] else [x];
      assert s == p + [x];
      assert multiset(s) == multiset(p) + multiset{x};
      WithoutAccidentalsFilters(p);
      var w := WithoutAccidentals(p);
      assert WithoutAccidentals(s) == w + kept;
      assert multiset(w + kept) == multiset(w) + multiset(kept);
    }
  }

  /** A text that is empty once stripped of whitespace raises, as `chord_text[0]` does. */
  lemma BlankTextFails(text: string)
    requires forall i :: 0 <= i < |text| ==> IsSpace(text[i])
    ensures Parse(text) == Failure(EmptyText)
  {
    AllSpaceTrimsAway(text);
  }

  /** A stripped text whose first letter, upper-cased, is not A to H gives the invalid blank chord. */
  lemma NotALetterIsBlank(text: string)
    requires Strip(text) != [] && Upper(Strip(text)[0]) !in ValidLetters
    ensures Parse(text) == Success(Blank)
    ensures !Parse(text).value.isValid && Parse(text).value.index == 0
    ensures Parse(text).value.sharpName == "" && Parse(text).value.flatName == ""
  {
  }

  /** A text that parses is valid exactly when its first letter is A to H, in either case. */
  lemma ParsedValidity(text: string)
    requires Parse(text).Success?
    ensures Parse(text).value.isValid <==> Upper(Strip(text)[0]) in ValidLetters
    ensures Parse(text).value.isValid ==> Parse(text).value.index in ScaleMap
  {
    ParseWellFormed(text);
    var t := Strip(text);
    if Upper(t[0]) in ValidLetters {
      ChordMapInScale(RootName(t));
    }
  }

  /** What every CHORD_MAP key looks like: a letter A to H, then possibly `#` or `b`. */
  lemma ChordMapKeyShape(k: string)
    requires k in ChordMap
    ensures 1 <= |k| <= 2 && k[0] in ValidLetters && Upper(k[0]) == k[0]
    ensures |k| == 2 ==> IsAccidental(k[1])
    ensures !IsSpace(k[0]) && !IsSpace(k[|k| - 1])
  {
  }

  /** Every two-character key of CHORD_MAP ends in `#` or `b`. */
  lemma TwoLetterKeys()
    ensures forall k :: k in ChordMap && |k| == 2 ==> IsAccidental(k[1])
  {
    forall k | k in ChordMap && |k| == 2
      ensures IsAccidental(k[1])
    {
      ChordMapKeyShape(k);
    }
  }

  /** A text without whitespace at either end is parsed as written: the definition of `Chord(text)` after `strip()`. */
  lemma ParseTrimmed(t: string)
    requires t != [] && !IsSpace(t[0]) && !IsSpace(t[|t| - 1])
    ensures Parse(t) == if Upper(t[0]) !in ValidLetters then Success(Blank)
                        else if RootName(t) !in ChordMap then Failure(UnknownRoot(RootName(t)))
                        else IndexSetup(Blank, ChordMap[RootName(t)], WithoutAccidentals(t[1..]))
  {
    StripKeepsTrimmed(t);
  }

  /**
   * The root scan of `root + sfx` settles on `root` when the root carries an
   * accidental or the rest has none, and the suffix collected is the rest
   * without its accidentals.
   */
  lemma RootNameOfRootAndSuffix(root: string, sfx: string)
    requires 1 <= |root| <= 2 && Upper(root[0]) == root[0]
    requires |root| == 2 ==> IsAccidental(root[1])
    requires |root| == 1 ==> NoAccidentals(sfx)
    ensures RootName(root + sfx) == root
    ensures WithoutAccidentals((root + sfx)[1..]) == WithoutAccidentals(sfx)
  {
    var t := root + sfx;
    assert t[1..] == root[1..] + sfx;
    WithoutAccidentalsAppend(root[1..], sfx);
    if |root| == 2 {
      assert t[1..][0] == root[1];
      assert t[..2] == root;
      assert WithoutAccidentals(root[1..]) == [];
    } else {
      assert t[1..] == sfx;
      assert '#' !in sfx && 'b' !in sfx by {
        forall j | 0 <= j < |sfx|
          ensures sfx[j] != '#' && sfx[j] != 'b'
        {
          assert !IsAccidental(sfx[j]);
        }
      }
      assert [Upper(t[0])] == root;
    }
  }

  /**
   * A CHORD_MAP root followed by text that does not end in whitespace is set
   * up from that root's index with the text, less its accidentals, as
   * suffix, provided the text has no accidental or the root has one.
   */
  lemma ParseRootThen(root: string, rest: string)
    requires root in ChordMap && (|root| == 1 ==> NoAccidentals(rest))
    requires rest != [] ==> !IsSpace(rest[|rest| - 1])
    ensures ChordMap[root] in ScaleMap
    ensures Parse(root + rest) == Make(ChordMap[root], WithoutAccidentals(rest))
  {
    ChordMapKeyShape(root);
    ChordMapInScale(root);
    var t := root + rest;
    assert t[0] == root[0];
    assert !IsSpace(t[|t| - 1]) by {
      if rest == [] {
        assert t == root;
      } else {
        assert t[|t| - 1] == rest[|rest| - 1];
      }
    }
    ParseTrimmed(t);
    RootNameOfRootAndSuffix(root, rest);
  }

  /**
   * A CHORD_MAP root followed by a suffix free of `#`, `b` and `/` that does
   * not end in whitespace parses to that root's index, with that suffix.
   */
  lemma ParseRootAndSuffix(root: string, sfx: string)
    requires root in ChordMap && NoAccidentals(sfx) && '/' !in sfx
    requires sfx != [] ==> !IsSpace(sfx[|sfx| - 1])
    ensures ChordMap[root] in ScaleMap
    ensures var i := ChordMap[root];
            Parse(root + sfx) == Success(ChordValue(i, SharpOf(i), FlatOf(i), sfx, None, true))
  {
    ParseRootThen(root, sfx);
    WithoutAccidentalsKeeps(sfx);
    MakeInRange(ChordMap[root], sfx);
  }

  /** A text that is a CHORD_MAP root and a plain suffix is the chord `Chord(index, suffix)` builds. */
  lemma ParseIsMake(t: string, root: string, sfx: string)
    requires t == root + sfx && root in ChordMap && NoAccidentals(sfx) && '/' !in sfx
    requires sfx != [] ==> !IsSpace(sfx[|sfx| - 1])
    ensures Parse(t) == Make(ChordMap[root], sfx)
  {
    ParseRootAndSuffix(root, sfx);
    MakeInRange(ChordMap[root], sfx);
  }

  /** Joining two texts free of `#` and `b` with a `/` keeps them free of both. */
  lemma SlashJoinNoAccidentals(a: string, b: string)
    requires NoAccidentals(a) && NoAccidentals(b)
    ensures NoAccidentals(a + "/" + b)
  {
    var t := a + "/" + b;
    forall j | 0 <= j < |t|
      ensures !IsAccidental(t[j])
    {
      if j < |a| {
        assert t[j] == a[j];
      } else if j > |a| {
        assert t[j] == b[j - |a| - 1];
      }
    }
  }

  /**
   * A CHORD_MAP root, a suffix and `/` then a sub-chord text, none of them
   * holding `#`, `b` or a second `/`, parse to that root with that suffix
   * and the parsed sub-chord, and fail exactly when the sub-chord does.
   */
  lemma ParseWithSubChord(root: string, sfx: string, sub: string)
    requires root in ChordMap && NoAccidentals(sfx) && NoAccidentals(sub) && '/' !in sfx && '/' !in sub
    requires sub != [] ==> !IsSpace(sub[|sub| - 1])
    ensures ChordMap[root] in ScaleMap
    ensures var i := ChordMap[root];
            var p := Parse(sub);
            && (Parse(root + sfx + "/" + sub).Success? <==> p.Success?)
            && (p.Failure? ==> Parse(root + sfx + "/" + sub).error == p.error)
            && (p.Success? ==> Parse(root + sfx + "/" + sub).value == ChordValue(i, SharpOf(i), FlatOf(i), sfx, Some(p.value), true))
  {
    var rest := sfx + "/" + sub;
    assert root + sfx + "/" + sub == root + rest;
    assert rest != [] && rest[|rest| - 1] == (if sub == [] then '/' else sub[|sub| - 1]);
    SlashJoinNoAccidentals(sfx, sub);
    ParseRootThen(root, rest);
    WithoutAccidentalsKeeps(rest);
    MakeWithSlash(ChordMap[root], sfx, sub);
  }

  /**
   * After a two-character root such as `C#`, every `#` and `b` of the text
   * is dropped, those of the sub-chord included: the sub-chord is set up
   * from its text without accidentals.
   */
  lemma SubChordAccidentalSwallowed(root: string, sub: string)
    requires root in ChordMap && |root| == 2
    requires sub != [] ==> !IsSpace(sub[|sub| - 1])
    ensures ChordMap[root] in ScaleMap
    ensures Parse(root + "/" + sub) == Make(ChordMap[root], "/" + WithoutAccidentals(sub))
  {
    var rest := "/" + sub;
    assert root + "/" + sub == root + rest;
    assert rest[|rest| - 1] == (if sub == [] then '/' else sub[|sub| - 1]);
    SlashKeeps(sub);
    ParseRootThen(root, rest);
  }

  /**
   * A valid chord without a sub-chord, whose suffix has no `#`, `b` or
   * trailing whitespace, parses back from its own text and from its flat
   * text: `get_chord_text` and `get_flat_name` are inverse to `Chord(text)`.
   */
  lemma ChordTextRoundTrip(c: ChordValue)
    requires WellFormed(c) && c.isValid && c.subChord.None?
    requires NoAccidentals(c.suffixes) && (c.suffixes != [] ==> !IsSpace(c.suffixes[|c.suffixes| - 1]))
    ensures Parse(c.ChordText()) == Success(c)
    ensures Parse(c.FlatText()) == Success(c)
  {
    var i := c.index;
    TableRoundTrip(i);
    assert c == ChordValue(i, SharpOf(i), FlatOf(i), c.suffixes, None, true);
    assert c.SuffixText() == c.suffixes;
    ParseRootAndSuffix(SharpOf(i), c.suffixes);
    ParseRootAndSuffix(FlatOf(i), c.suffixes);
  }

  /**
   * A bare CHORD_MAP root after `/` becomes the sub-chord, written back with
   * its sharp name: the suffixes read `/` and that name.
   */
  lemma MakeSlashRoot(i: int, root: string)
    requires i in ScaleMap && root in ChordMap
    ensures Make(i, "/" + root).Success?
    ensures Make(i, "/" + root).value.SuffixText() == "/" + SharpOf(ChordMap[root])
    ensures Make(i, "/" + root).value.ChordText() == SharpOf(i) + "/" + SharpOf(ChordMap[root])
  {
    assert "" + "/" + root == "/" + root;
    ParseRoot(root);
    RootHasNoSlash(root);
    MakeWithSlash(i, "", root);
    var p := Parse(root).value;
    assert Make(i, "/" + root).value == ChordValue(i, SharpOf(i), FlatOf(i), "", Some(p), true);
    SubChordTexts(ChordValue(i, SharpOf(i), FlatOf(i), "", Some(p), true));
  }

  /** A chord with a sub-chord writes its suffixes, then `/`, then the sub-chord's text. */
  lemma SubChordTexts(c: ChordValue)
    requires c.subChord.Some?
    ensures c.SuffixText() == c.suffixes + "/" + c.subChord.value.ChordText()
    ensures c.ChordText() == c.sharpName + c.suffixes + "/" + c.subChord.value.ChordText()
  {
  }

  /** A bare CHORD_MAP root parses to its index, written with its sharp name. */
  lemma ParseRoot(root: string)
    requires root in ChordMap
    ensures ChordMap[root] in ScaleMap
    ensures Parse(root) == Make(ChordMap[root], "")
    ensures Parse(root).Success? && Parse(root).value.ChordText() == SharpOf(ChordMap[root])
  {
    var k := ChordMap[root];
    assert root + "" == root;
    ParseIsMake(root, root, "");
    MakeInRange(k, "");
    assert SharpOf(k) + "" == SharpOf(k);
  }

  /** No key of CHORD_MAP holds a `/`. */
  lemma RootHasNoSlash(root: string)
    requires root in ChordMap
    ensures '/' !in root
  {
    ChordMapKeyShape(root);
    assert root[0] != '/';
  }

  // ---------------------------------------------------------------------------
  // The expectations of tests/test_chord.py, and the quirks of the code
  //
  // Each example names its chord text as a parameter equal to the literal,
  // so that the verifier reasons about the general lemmas it calls rather
  // than evaluating the parse of the literal step by step.

  /** tests/test_chord.py:9-16: a plain letter A to G is a valid chord. */
  lemma ExampleValidA(text: string)
    requires text == "A"
    ensures Parse(text).Success? && Parse(text).value.isValid
  {
    assert text == "A" + "";
    ParseRootAndSuffix("A", "");
  }

  /** tests/test_chord.py:9-16: a sharp root with a suffix is valid. */
  lemma ExampleValidSharpMinor(text: string)
    requires text == "A#m"
    ensures Parse(text).Success? && Parse(text).value.isValid
  {
    assert text == "A#" + "m";
    ParseRootAndSuffix("A#", "m");
  }

  /** tests/test_chord.py:9-16: the German H is valid and named B. */
  lemma ExampleValidGermanH(text: string)
    requires text == "H"
    ensures Parse(text).Success? && Parse(text).value.isValid && Parse(text).value.sharpName == "B"
  {
    assert text == "H" + "";
    ParseRootAndSuffix("H", "");
  }

  /** tests/test_chord.py:9-16: a letter after H is not a chord. */
  lemma ExampleInvalidJ(text: string)
    requires text == "J"
    ensures Parse(text) == Success(Blank)
  {
    assert Upper(text[0]) !in ValidLetters;
    ParseTrimmed(text);
  }

  /**
   * A `#` or `b` anywhere after the second character makes the first two
   * characters the root; when the second is not itself an accidental, that
   * root is no key of CHORD_MAP and the lookup raises.
   */
  lemma LateAccidentalRaises(t: string, p: nat)
    requires 2 <= p < |t| && !IsSpace(t[0]) && !IsSpace(t[|t| - 1])
    requires Upper(t[0]) in ValidLetters && IsAccidental(t[p]) && !IsAccidental(t[1])
    ensures Parse(t) == Failure(UnknownRoot(t[..2]))
  {
    ParseTrimmed(t);
    assert t[1..][p - 1] == t[p];
    assert RootName(t) == t[..2];
    TwoLetterKeys();
    assert t[..2][1] == t[1];
  }

  /** tests/test_chord.py:14 expects `Am#` to be invalid, but the root scan makes `Am` the root and the lookup raises. */
  lemma ExampleSharpAfterSuffix(text: string)
    requires text == "Am#"
    ensures Parse(text) == Failure(UnknownRoot("Am"))
  {
    assert text[..2] == "Am";
    LateAccidentalRaises(text, 2);
  }

  /** A flat in the sub-chord makes the first two characters the root: `C/Bb` raises. */
  lemma ExampleFlatSubChord(text: string)
    requires text == "C/Bb"
    ensures Parse(text) == Failure(UnknownRoot("C/"))
  {
    assert text[..2] == "C/";
    LateAccidentalRaises(text, 3);
  }

  /** A `b` in the suffix counts as a flat: `Cm7b5` raises. */
  lemma ExampleFlatFive(text: string)
    requires text == "Cm7b5"
    ensures Parse(text) == Failure(UnknownRoot("Cm"))
  {
    assert text[..2] == "Cm";
    LateAccidentalRaises(text, 3);
  }

  /** The empty sub-chord of `G/` raises, as `chord_text[0]` does. */
  lemma ExampleEmptySubChord(text: string)
    requires text == "G/"
    ensures Parse(text) == Failure(EmptyText)
  {
    assert text == "G" + "" + "/" + "";
    assert Parse("") == Failure(EmptyText);
    ParseWithSubChord("G", "", "");
  }

  /** A text of spaces raises. */
  lemma ExampleSpaces(text: string)
    requires text == "   "
    ensures Parse(text) == Failure(EmptyText)
  {
    BlankTextFails(text);
  }

  /** tests/test_chord.py:29-39: `Chord(8, 'm')` is Em under every name. */
  lemma ExampleEm()
    ensures Make(8, "m").Success?
    ensures Make(8, "m").value.ChordText() == "Em"
    ensures Make(8, "m").value.SharpText() == "Em"
    ensures Make(8, "m").value.FlatText() == "Em"
  {
    MakeInRange(8, "m");
  }

  /** tests/test_chord.py:29-39: `Chord('Em')` is the same chord as `Chord(8, 'm')`. */
  lemma ExampleParseEm(text: string)
    requires text == "Em"
    ensures Parse(text) == Make(8, "m")
  {
    assert text == "E" + "m";
    ParseIsMake(text, "E", "m");
  }

  /** tests/test_chord.py:44-48: a flat root keeps its suffix. */
  lemma ExampleFlatRootSuffix(text: string)
    requires text == "Bbm"
    ensures Parse(text).Success? && Parse(text).value.SuffixText() == "m"
  {
    assert text == "Bb" + "m";
    ParseRootAndSuffix("Bb", "m");
  }

  /** `G/C` is set up as G with the suffix `/C`. */
  lemma ExampleParseSlashC(text: string)
    requires text == "G/C"
    ensures Parse(text) == Make(11, "/C")
  {
    assert text == "G" + "/C";
    assert NoAccidentals("/C");
    ParseRootThen("G", "/C");
    WithoutAccidentalsKeeps("/C");
  }

  /** The index 11 with the suffix `/C` has an empty suffix and the sub-chord C, written after the slash. */
  lemma ExampleMakeSlashC(sfx: string)
    requires sfx == "/C"
    ensures Make(11, sfx).Success? && Make(11, sfx).value.SuffixText() == "/C"
  {
    assert sfx == "/" + "C";
    assert SharpOf(ChordMap["C"]) == "C";
    MakeSlashRoot(11, "C");
  }

  /** tests/test_chord.py:48: the suffixes of `G/C` are `/C`. */
  lemma ExampleSlashC(text: string)
    requires text == "G/C"
    ensures Parse(text).Success? && Parse(text).value.SuffixText() == "/C"
  {
    ExampleParseSlashC(text);
    ExampleMakeSlashC("/C");
  }

  /** An accidental of the sub-chord is taken by the outer root scan: `C#/G#` is set up as `C#` with the suffix `/G`. */
  lemma ExampleSubChordAccidental(text: string)
    requires text == "C#/G#"
    ensures Parse(text) == Make(5, "/G")
  {
    assert text == "C#" + "/" + "G#";
    assert "C#" in ChordMap && ChordMap["C#"] == 5;
    assert "/" + WithoutAccidentals("G#") == "/G" by {
      assert "G#"[..1] == "G" && "G"[..0] == [];
    }
    SubChordAccidentalSwallowed("C#", "G#");
  }

  /** ...and so reads back as `C#/G`. */
  lemma ExampleSubChordText(sfx: string)
    requires sfx == "/G"
    ensures Make(5, sfx).Success? && Make(5, sfx).value.ChordText() == "C#/G"
  {
    assert sfx == "/" + "G";
    assert SharpOf(ChordMap["G"]) == "G" && SharpOf(5) + "/" + "G" == "C#/G";
    MakeSlashRoot(5, "G");
  }

  /** A chord set up from an index without a sub-chord transposes to the moved index's sharp name and the same suffix. */
  lemma TransposedMakeText(i: int, sfx: string, s: int)
    requires i in ScaleMap && '/' !in sfx
    ensures Make(i, sfx).Success?
    ensures Transposed(Make(i, sfx).value, s).ChordText() == SharpOf(TransposedIndex(i, s)) + sfx
  {
    MakeInRange(i, sfx);
    TransposedNames(Make(i, sfx).value, s);
  }

  /**
   * `Chord(text)` for a CHORD_MAP root and a plain suffix, transposed by
   * `s`, is written with the sharp name of the moved index and the same
   * suffix.
   */
  lemma ParsedTransposeText(t: string, root: string, sfx: string, s: int)
    requires t == root + sfx && root in ChordMap && NoAccidentals(sfx) && '/' !in sfx
    requires sfx != [] ==> !IsSpace(sfx[|sfx| - 1])
    ensures Parse(t).Success?
    ensures Transposed(Parse(t).value, s).ChordText() == SharpOf(TransposedIndex(ChordMap[root], s)) + sfx
  {
    ParseIsMake(t, root, sfx);
    ChordMapInScale(root);
    TransposedMakeText(ChordMap[root], sfx, s);
  }

  /** `x` starts with no letter A to H: it is set up as the blank, invalid chord. */
  lemma ExampleInvalidX(text: string)
    requires text == "x"
    ensures Parse(text) == Success(Blank)
  {
    assert Upper(text[0]) !in ValidLetters;
    ParseTrimmed(text);
  }

  /** `G/x` is set up as G with the suffix `/x`. */
  lemma ExampleParseSlashX(text: string)
    requires text == "G/x"
    ensures Parse(text) == Make(11, "/x")
  {
    assert text == "G" + "/x";
    assert NoAccidentals("/x");
    ParseRootThen("G", "/x");
    WithoutAccidentalsKeeps("/x");
  }

  /** The index 11 with the suffix `/x` has an empty suffix and the blank sub-chord. */
  lemma ExampleMakeSlashX(sfx: string)
    requires sfx == "/x"
    ensures Make(11, sfx) == Success(ChordValue(11, "G", "G", "", Some(Blank), true))
  {
    assert sfx == "" + "/" + "x";
    ExampleInvalidX("x");
    MakeWithSlash(11, "", "x");
  }

  /** `Chord('G/x')`: a valid G whose sub-chord `x` is the invalid blank chord, written `G/`. */
  lemma ExampleInvalidSubChord(text: string)
    requires text == "G/x"
    ensures Parse(text) == Success(ChordValue(11, "G", "G", "", Some(Blank), true))
    ensures Parse(text).value.ChordText() == "G/"
  {
    ExampleParseSlashX(text);
    ExampleMakeSlashX("/x");
    SubChordTexts(Parse(text).value);
  }

  /** `Chord('G/x')` transposed by 0, or by +1 and then -1, reads `G/G#`: the blank sub-chord moved from index 0 to 12. */
  lemma ExampleInvalidSubChordMoves(c: ChordValue)
    requires c == ChordValue(11, "G", "G", "", Some(Blank), true)
    ensures Transposed(c, 0).ChordText() == "G/G#"
    ensures Transposed(Transposed(c, 1), -1).ChordText() == "G/G#"
  {
    InvalidSubChordMoves(c, 1);
    assert TransposedIndex(0, 0) == 12 && TransposedIndex(11, 0) == 11;
    var r := Transposed(c, 0);
    SubChordTexts(r);
    assert r.subChord.value == ChordValue(12, "G#", "Ab", "", None, true);
    assert r.subChord.value.ChordText() == "G#";
  }

  /** tests/test_chord.py:60-62: `Chord('Em')`, `Chord('Esus4')` and `Chord('Bm7')` transposed by -3, +1 and 0. */
  lemma ExampleTransposeSuffixed(em: string, esus4: string, bm7: string)
    requires em == "Em" && esus4 == "Esus4" && bm7 == "Bm7"
    ensures Parse(em).Success? && Transposed(Parse(em).value, -3).ChordText() == "C#m"
    ensures Parse(esus4).Success? && Transposed(Parse(esus4).value, 1).ChordText() == "Fsus4"
    ensures Parse(bm7).Success? && Transposed(Parse(bm7).value, 0).ChordText() == "Bm7"
  {
    assert em == "E" + "m" && esus4 == "E" + "sus4" && bm7 == "B" + "m7";
    assert NoAccidentals("m") && NoAccidentals("sus4") && NoAccidentals("m7");
    assert ChordMap["E"] == 8 && ChordMap["B"] == 3;
    assert SharpOf(TransposedIndex(8, -3)) + "m" == "C#m";
    assert SharpOf(TransposedIndex(8, 1)) + "sus4" == "Fsus4";
    assert SharpOf(TransposedIndex(3, 0)) + "m7" == "Bm7";
    ParsedTransposeText(em, "E", "m", -3);
    ParsedTransposeText(esus4, "E", "sus4", 1);
    ParsedTransposeText(bm7, "B", "m7", 0);
  }

  /** tests/test_chord.py:63-66: `Chord('Ab')`, `Chord('G')`, `Chord('C')` and `Chord('F#')` transposed by +1, +5, -5 and -2. */
  lemma ExampleTransposeRoots(ab: string, g: string, c: string, fs: string)
    requires ab == "Ab" && g == "G" && c == "C" && fs == "F#"
    ensures Parse(ab).Success? && Transposed(Parse(ab).value, 1).ChordText() == "A"
    ensures Parse(g).Success? && Transposed(Parse(g).value, 5).ChordText() == "C"
    ensures Parse(c).Success? && Transposed(Parse(c).value, -5).ChordText() == "G"
    ensures Parse(fs).Success? && Transposed(Parse(fs).value, -2).ChordText() == "E"
  {
    assert ab == "Ab" + "" && g == "G" + "" && c == "C" + "" && fs == "F#" + "";
    assert ChordMap["Ab"] == 12 && ChordMap["G"] == 11 && ChordMap["C"] == 4 && ChordMap["F#"] == 10;
    assert SharpOf(TransposedIndex(12, 1)) + "" == "A";
    assert SharpOf(TransposedIndex(11, 5)) + "" == "C";
    assert SharpOf(TransposedIndex(4, -5)) + "" == "G";
    assert SharpOf(TransposedIndex(10, -2)) + "" == "E";
    ParsedTransposeText(ab, "Ab", "", 1);
    ParsedTransposeText(g, "G", "", 5);
    ParsedTransposeText(c, "C", "", -5);
    ParsedTransposeText(fs, "F#", "", -2);
  }

  /** `Chord('Bb')` is the chord at index 2 with no suffix. */
  lemma ExampleParseBb(text: string)
    requires text == "Bb"
    ensures Parse(text) == Make(2, "")
  {
    assert "Bb" in ChordMap && ChordMap["Bb"] == 2;
    ParseIsMake(text, text, "");
  }

  /** Transposing by zero spells a flat root with its sharp name: `Bb` becomes `A#`. */
  lemma ExampleZeroRespells()
    ensures Transposed(Make(2, "").value, 0).ChordText() == "A#"
  {
    TransposedMakeText(2, "", 0);
    assert TransposedIndex(2, 0) == 2;
  }
}
