/**
 * The chord record of chord.py: how a chord is built from text or from a
 * semitone index, how it is written back out, and how it is transposed.
 *
 * `ChordValue` is the value a chord holds at one moment (its six private
 * attributes); the functions over it say what each step of chord.py computes.
 * The class `Chord` keeps those attributes as fields and changes them in
 * place, as the Python methods do, each method proved against the function
 * that specifies it.
 */
module Chords {
  import opened Wrappers
  import opened Pitch
  import opened Text

  /** The exceptions building a chord can raise. */
  datatype ChordError =
    | EmptyText                 // IndexError: `chord_text[0]` of a text that is empty once stripped
    | UnknownRoot(name: string) // KeyError: the root is not a key of CHORD_MAP

  /**
   * A chord's state: the index (1 to 12, 0 while invalid), the two spellings
   * of its root, the suffix text, the owned sub-chord written after `/`, and
   * the validity flag.
   */
  datatype ChordValue = ChordValue(
    index: int,
    sharpName: string,
    flatName: string,
    suffixes: string,
    subChord: Option<ChordValue>,
    isValid: bool)
  {
    /** `get_suffixes`: the suffix, then `/` and the sub-chord's text when there is one. */
    function SuffixText(): string
      decreases this, 0
    {
      suffixes + match subChord
                 case Some(sub) => "/" + sub.ChordText()
                 case None => ""
    }

    /** `get_sharp_name`: the sharp spelling of the root with the suffixes. */
    function SharpText(): string
      decreases this, 1
    {
      sharpName + SuffixText()
    }

    /** `get_flat_name`: the flat spelling of the root with the same suffixes. */
    function FlatText(): string
    {
      flatName + SuffixText()
    }

    /** `get_chord_text`: the sharp spelling is the default text of a chord. */
    function ChordText(): string
      decreases this, 2
    {
      SharpText()
    }
  }

  /** The outcome of a setup step: whether it raised, and what. */
  function Status(r: Result<ChordValue, ChordError>): Outcome<ChordError>
  {
    if r.Success? then Pass else Fail(r.error)
  }

  /** The state a new object starts from: the class attribute defaults (chord.py:54-59). */
  const Blank := ChordValue(0, "", "", "", None, false)

  predicate IsAccidental(c: char)
  {
    c == '#' || c == 'b'
  }

  /** The characters of `s` that are not `#` or `b`, in order: what the parse loop collects as suffix. */
  function WithoutAccidentals(s: string): (r: string)
    ensures |r| <= |s|
  {
    if s == [] then []
    else WithoutAccidentals(s[..|s| - 1]) + (if IsAccidental(s[|s| - 1]) then [] else [s[|s| - 1]])
  }

  /**
   * The root the parse loop settles on for a stripped, non-empty text: the
   * first two characters as written once a `#` or `b` follows the first
   * letter anywhere, otherwise the first letter upper-cased.
   */
  function RootName(t: string): (name: string)
    requires t != []
    ensures 1 <= |name| <= 2
  {
    if '#' in t[1..] || 'b' in t[1..] then t[..2] else [Upper(t[0])]
  }

  /**
   * `_setup_with_index(index, suffixes)` applied to the state `c`: an index
   * outside SCALE_MAP changes nothing; otherwise the index and both
   * spellings are set, the suffixes processed, and the chord marked valid.
   */
  function IndexSetup(c: ChordValue, i: int, sfx: string): Result<ChordValue, ChordError>
    decreases |sfx|, 1
  {
    if i !in ScaleMap then Success(c)
    else
      var named := c.(index := i, sharpName := SharpOf(i), flatName := FlatOf(i));
      match SuffixSetup(named, sfx)
      case Success(d) => Success(d.(isValid := true))
      case Failure(e) => Failure(e)
  }

  /**
   * `_process_suffixes(suffixes)` applied to the state `c`: with a `/`, the
   * text before the first `/` is the suffix and the text between the first
   * and the second `/` is parsed as the sub-chord; without one the suffix is
   * stored and the sub-chord left as it was.
   */
  function SuffixSetup(c: ChordValue, sfx: string): Result<ChordValue, ChordError>
    decreases |sfx|, 0
  {
    if '/' in sfx then
      var before := UpTo(sfx, '/');
      var subText := UpTo(sfx[|before| + 1..], '/');
      match Parse(subText)
      case Success(sub) => Success(c.(suffixes := before, subChord := Some(sub)))
      case Failure(e) => Failure(e)
    else
      Success(c.(suffixes := sfx))
  }

  /**
   * `Chord(text)`: strip the text; a first letter outside A to H leaves the
   * invalid blank chord; otherwise the root is looked up in CHORD_MAP and
   * the chord set up from its index with the remaining characters as suffix.
   */
  function Parse(text: string): Result<ChordValue, ChordError>
    decreases |text|, 2
  {
    var t := Strip(text);
    if t == [] then Failure(EmptyText)
    else if Upper(t[0]) !in ValidLetters then Success(Blank)
    else
      var name := RootName(t);
      if name !in ChordMap then Failure(UnknownRoot(name))
      else IndexSetup(Blank, ChordMap[name], WithoutAccidentals(t[1..]))
  }

  /** `Chord(index, suffixes)` */
  function Make(i: int, sfx: string): Result<ChordValue, ChordError>
  {
    IndexSetup(Blank, i, sfx)
  }

  /**
   * `transpose(semitones)`: the index moves modulo the octave, both
   * spellings follow it, the chord becomes valid, the suffix is kept and the
   * sub-chord moves by the same amount.
   */
  function Transposed(c: ChordValue, s: int): (r: ChordValue)
    ensures r.isValid && r.index in ScaleMap
    ensures r.suffixes == c.suffixes
    ensures r.subChord.Some? <==> c.subChord.Some?
  {
    var i := TransposedIndex(c.index, s);
    c.(index := i, sharpName := SharpOf(i), flatName := FlatOf(i), isValid := true,
       subChord := match c.subChord
                   case Some(sub) => Some(Transposed(sub, s))
                   case None => None)
  }

  /**
   * What every constructed chord satisfies: a valid chord's spellings are
   * the table's for its index and its suffix holds no `/`; an invalid chord
   * is the blank one; and the same holds of the sub-chord.
   */
  predicate WellFormed(c: ChordValue)
  {
    (if c.isValid
     then c.index in ScaleMap && c.sharpName == SharpOf(c.index) && c.flatName == FlatOf(c.index)
          && '/' !in c.suffixes
     else c == Blank)
    && (c.subChord.Some? ==> WellFormed(c.subChord.value))
  }

  lemma {:induction false} ParseWellFormed(text: string)
    ensures Parse(text).Success? ==> WellFormed(Parse(text).value)
    decreases |text|, 2
  {
    var t := Strip(text);
    if t != [] && Upper(t[0]) in ValidLetters && RootName(t) in ChordMap {
      IndexSetupWellFormed(Blank, ChordMap[RootName(t)], WithoutAccidentals(t[1..]));
    }
  }

  lemma {:induction false} IndexSetupWellFormed(c: ChordValue, i: int, sfx: string)
    requires WellFormed(c)
    ensures IndexSetup(c, i, sfx).Success? ==> WellFormed(IndexSetup(c, i, sfx).value)
    decreases |sfx|, 1
  {
    if i in ScaleMap && '/' in sfx {
      var before := UpTo(sfx, '/');
      ParseWellFormed(UpTo(sfx[|before| + 1..], '/'));
    }
  }

  lemma {:induction false} TransposedWellFormed(c: ChordValue, s: int)
    requires WellFormed(c)
    ensures WellFormed(Transposed(c, s))
  {
    if c.subChord.Some? {
      TransposedWellFormed(c.subChord.value, s);
    }
  }

  /** With a suffix free of `/`, transposing is `_setup_with_index` at the new index with the same suffix. */
  lemma TransposeIsIndexSetup(c: ChordValue, s: int)
    requires '/' !in c.suffixes
    ensures IndexSetup(c, TransposedIndex(c.index, s), c.suffixes)
            == Success(Transposed(c, s).(subChord := c.subChord))
  {
  }

  /** At an index of SCALE_MAP, `_setup_with_index` is `_process_suffixes` on the renamed state, then marks it valid. */
  lemma IndexSetupStep(c: ChordValue, i: int, sfx: string)
    requires i in ScaleMap
    ensures var inner := SuffixSetup(c.(index := i, sharpName := SharpOf(i), flatName := FlatOf(i)), sfx);
            && Status(IndexSetup(c, i, sfx)) == Status(inner)
            && (inner.Success? ==> IndexSetup(c, i, sfx).value == inner.value.(isValid := true))
  {
  }

  /** `_setup_with_index` at a valid index overwrites every attribute except the sub-chord. */
  lemma IndexSetupOverwrites(c: ChordValue, d: ChordValue, i: int, sfx: string)
    requires i in ScaleMap && c.subChord == d.subChord
    ensures IndexSetup(c, i, sfx) == IndexSetup(d, i, sfx)
  {
  }

  /** A chord object: the attributes of chord.py's `Chord`, changed in place. */
  class Chord {
    var index: int
    var sharpName: string
    var flatName: string
    var suffixes: string
    var subChord: Chord?
    var isValid: bool
    /** The chord's value: its attributes, with the sub-chord's value in place of the sub-chord object. */
    ghost var model: ChordValue
    ghost var Repr: set<object>

    /** The chord owns its sub-chord (no sharing, no cycle) and `model` mirrors the attributes. */
    ghost predicate Valid()
      reads this, Repr
      decreases Repr
    {
      && this in Repr
      && model.index == index && model.sharpName == sharpName && model.flatName == flatName
      && model.suffixes == suffixes && model.isValid == isValid
      && (subChord == null ==> Repr == {this} && model.subChord == None)
      && (subChord != null ==>
            && subChord in Repr && this !in subChord.Repr && Repr == {this} + subChord.Repr
            && subChord.Valid() && model.subChord == Some(subChord.model))
    }

    /** The invariant every chord has once its construction has returned. */
    ghost predicate Constructed()
      reads this, Repr
    {
      Valid() && WellFormed(model)
    }

    /** The object as `__init__` finds it, before any setup. */
    constructor ()
      ensures Valid() && fresh(Repr) && model == Blank
    {
      index, sharpName, flatName, suffixes, subChord, isValid := 0, "", "", "", null, false;
      model := Blank;
      Repr := {this};
    }

    /** `Chord(text)` (chord.py:61-63) */
    static method FromText(text: string) returns (r: Result<Chord, ChordError>)
      decreases |text|, 3
      ensures r.Success? <==> Parse(text).Success?
      ensures r.Success? ==> r.value.Constructed() && fresh(r.value.Repr) && r.value.model == Parse(text).value
      ensures r.Failure? ==> r.error == Parse(text).error
    {
      var c := new Chord();
      var ok := c.SetupWithText(text);
      if ok.Fail? {
        return Failure(ok.error);
      }
      ParseWellFormed(text);
      return Success(c);
    }

    /** `Chord(index, suffixes)` (chord.py:64-65) */
    static method FromIndex(i: int, sfx: string) returns (r: Result<Chord, ChordError>)
      ensures r.Success? <==> Make(i, sfx).Success?
      ensures r.Success? ==> r.value.Constructed() && fresh(r.value.Repr) && r.value.model == Make(i, sfx).value
      ensures r.Failure? ==> r.error == Make(i, sfx).error
    {
      var c := new Chord();
      var ok := c.SetupWithIndex(i, sfx);
      if ok.Fail? {
        return Failure(ok.error);
      }
      IndexSetupWellFormed(Blank, i, sfx);
      return Success(c);
    }

    /** `_process_suffixes` */
    method ProcessSuffixes(sfx: string) returns (ok: Outcome<ChordError>)
      requires Valid()
      modifies this
      decreases |sfx|, 0
      ensures Valid() && fresh(Repr - old(Repr))
      ensures '/' !in sfx ==> ok.Pass? && Repr == old(Repr) && subChord == old(subChord)
      ensures ok.Pass? <==> SuffixSetup(old(model), sfx).Success?
      ensures ok.Pass? ==> model == SuffixSetup(old(model), sfx).value
      ensures ok.Fail? ==> ok.error == SuffixSetup(old(model), sfx).error
    {
      if '/' in sfx {
        var before := UpTo(sfx, '/');
        var subText := UpTo(sfx[|before| + 1..], '/');
        SetSuffixes(before);
        var r := FromText(subText);
        if r.Failure? {
          return Fail(r.error);
        }
        AttachSubChord(r.value);
        ok := Pass;
      } else {
        SetSuffixes(sfx);
        ok := Pass;
      }
    }

    /** `self.__suffixes = ...` */
    method SetSuffixes(sfx: string)
      requires Valid()
      modifies this
      ensures Valid() && Repr == old(Repr) && subChord == old(subChord)
      ensures model == old(model).(suffixes := sfx)
    {
      suffixes, model := sfx, model.(suffixes := sfx);
    }

    /** `self.__sub_chord = ...`: the new sub-chord becomes part of this chord. */
    method AttachSubChord(sub: Chord)
      requires Valid() && sub.Valid() && this !in sub.Repr
      modifies this
      ensures Valid() && Repr == {this} + sub.Repr && subChord == sub
      ensures model == old(model).(subChord := Some(sub.model))
    {
      subChord, model, Repr := sub, model.(subChord := Some(sub.model)), {this} + sub.Repr;
    }

    /** The first lines of `_setup_with_index`: the index and both spellings from SCALE_MAP. */
    method SetNames(i: int)
      requires Valid() && i in ScaleMap
      modifies this
      ensures Valid() && Repr == old(Repr) && subChord == old(subChord)
      ensures model == old(model).(index := i, sharpName := SharpOf(i), flatName := FlatOf(i))
    {
      index := i;
      sharpName := ScaleMap[i][0];
      if |ScaleMap[i]| > 1 {
        flatName := ScaleMap[i][1];
      } else {
        flatName := sharpName;
      }
      model := model.(index := i, sharpName := SharpOf(i), flatName := FlatOf(i));
    }

    /** `_setup_with_index` */
    method SetupWithIndex(i: int, sfx: string) returns (ok: Outcome<ChordError>)
      requires Valid()
      modifies this
      decreases |sfx|, 1
      ensures Valid() && fresh(Repr - old(Repr))
      ensures '/' !in sfx ==> ok.Pass? && Repr == old(Repr) && subChord == old(subChord)
      ensures ok.Pass? <==> IndexSetup(old(model), i, sfx).Success?
      ensures ok.Pass? ==> model == IndexSetup(old(model), i, sfx).value
      ensures ok.Fail? ==> ok.error == IndexSetup(old(model), i, sfx).error
    {
      if i !in ScaleMap {
        // the "Invalid index" warning: nothing changes
        return Pass;
      }
      IndexSetupStep(model, i, sfx);
      SetNames(i);
      ok := ProcessSuffixes(sfx);
      if ok.Pass? {
        isValid, model := true, model.(isValid := true);
      }
    }

    /** `_populate_names_and_suffixes`, given the stripped text */
    method PopulateNamesAndSuffixes(t: string) returns (ok: Outcome<ChordError>)
      requires Valid() && model == Blank
      modifies this
      ensures Valid() && Repr == old(Repr)
      ensures ok.Pass? <==> t != []
      ensures ok.Fail? ==> ok.error == EmptyText
      ensures ok.Pass? && Upper(t[0]) !in ValidLetters ==> model == Blank
      ensures ok.Pass? && Upper(t[0]) in ValidLetters ==>
                var name := RootName(t);
                && model == Blank.(suffixes := suffixes, sharpName := sharpName, flatName := flatName)
                && suffixes == WithoutAccidentals(t[1..])
                && if '#' !in name && 'b' in name then sharpName == "" && flatName == name
                   else sharpName == name && flatName == ""
    {
      if t == [] {
        return Fail(EmptyText);
      }
      ok := Pass;
      if Upper(t[0]) !in ValidLetters {
        // the "Invalid chord found" warning: nothing is set
        return;
      }
      var name := [Upper(t[0])];
      var suffs := "";
      for i := 1 to |t|
        invariant name == if '#' in t[1..i] || 'b' in t[1..i] then t[..2] else [Upper(t[0])]
        invariant suffs == WithoutAccidentals(t[1..i])
      {
        assert t[1..i + 1] == t[1..i] + [t[i]];
        if t[i] == '#' || t[i] == 'b' {
          name := t[..2];
        } else {
          suffs := suffs + [t[i]];
        }
      }
      assert t[1..|t|] == t[1..];
      suffixes := suffs;
      if '#' in name {
        sharpName := name;
      } else if 'b' in name {
        flatName := name;
      } else {
        sharpName := name;
      }
      model := model.(suffixes := suffixes, sharpName := sharpName, flatName := flatName);
    }

    /** `_setup_with_text` */
    method SetupWithText(text: string) returns (ok: Outcome<ChordError>)
      requires Valid() && model == Blank
      modifies this
      decreases |text|, 2
      ensures Valid() && fresh(Repr - old(Repr))
      ensures ok.Pass? <==> Parse(text).Success?
      ensures ok.Pass? ==> model == Parse(text).value
      ensures ok.Fail? ==> ok.error == Parse(text).error
    {
      var t := Strip(text);
      ok := PopulateNamesAndSuffixes(t);
      if ok.Fail? {
        return;
      }
      if sharpName != "" {
        if sharpName !in ChordMap {
          return Fail(UnknownRoot(sharpName));
        }
        index := ChordMap[sharpName];
        model := model.(index := index);
        ChordMapInScale(sharpName);
        IndexSetupOverwrites(model, Blank, index, suffixes);
        ok := SetupWithIndex(index, suffixes);
      } else if flatName != "" {
        if flatName !in ChordMap {
          return Fail(UnknownRoot(flatName));
        }
        index := ChordMap[flatName];
        model := model.(index := index);
        ChordMapInScale(flatName);
        IndexSetupOverwrites(model, Blank, index, suffixes);
        ok := SetupWithIndex(index, suffixes);
      }
      // otherwise the text does not start with a chord letter and the chord stays invalid
    }

    /** `is_valid` */
    function IsValid(): (b: bool)
      reads this, Repr
      requires Valid()
      ensures b == model.isValid
    {
      isValid
    }

    /** `get_suffixes` */
    function GetSuffixes(): (r: string)
      reads this, Repr
      requires Valid()
      decreases Repr, 0
      ensures r == model.SuffixText()
    {
      suffixes + if subChord == null then "" else "/" + subChord.GetChordText()
    }

    /** `get_sharp_name` */
    function GetSharpName(): (r: string)
      reads this, Repr
      requires Valid()
      decreases Repr, 1
      ensures r == model.SharpText()
    {
      sharpName + GetSuffixes()
    }

    /** `get_flat_name` */
    function GetFlatName(): (r: string)
      reads this, Repr
      requires Valid()
      ensures r == model.FlatText()
    {
      flatName + GetSuffixes()
    }

    /** `get_chord_text` */
    function GetChordText(): (r: string)
      reads this, Repr
      requires Valid()
      decreases Repr, 2
      ensures r == model.ChordText()
    {
      GetSharpName()
    }

    /** `transpose` */
    method Transpose(semitones: int)
      requires Constructed()
      modifies Repr
      decreases Repr
      ensures Constructed() && Repr == old(Repr)
      ensures model == Transposed(old(model), semitones)
    {
      ghost var before := model;
      TransposeIsIndexSetup(before, semitones);
      var ok := SetupWithIndex(TransposedIndex(index, semitones), suffixes);
      if subChord != null {
        subChord.Transpose(semitones);
        model := model.(subChord := Some(subChord.model));
      }
      TransposedWellFormed(before, semitones);
    }
  }
}
