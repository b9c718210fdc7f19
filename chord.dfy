/**
 * `generateChordNotes`: a chord quality names three semitone offsets, the root
 * token is searched for a pitch name and an octave digit, and each offset is
 * applied to the root by the transposer.
 */
module Chord {
  import opened Wrappers
  import opened Text
  import opened Pitch

  /** `semitoneMap`: root, third and fifth of each chord quality, in that order. */
  const SemitoneMap: map<string, seq<int>> :=
    map["major" := [0, 4, 7], "minor" := [0, 3, 7], "diminished" := [0, 3, 6], "augmented" := [0, 4, 8]]

  /** Every quality has three ascending offsets from the root itself to at most eight semitones. */
  lemma SemitoneTable(quality: string)
    requires quality in SemitoneMap
    ensures var offsets := SemitoneMap[quality];
      |offsets| == 3 && offsets[0] == 0 && offsets[0] < offsets[1] < offsets[2] <= 8
  {
  }

  /** What the regular expression `/([A-G]#?)(\d)/` captures: a pitch name and an octave digit. */
  datatype Root = Root(pitch: string, octave: nat)

  predicate IsLetter(ch: char) {
    'A' <= ch <= 'G'
  }

  /**
   * The match of `/([A-G]#?)(\d)/` that begins at position `i`, if any. The
   * optional `#` is tried first; without it the letter must be followed
   * directly by a digit.
   */
  function RootAt(s: string, i: nat): (r: Option<Root>)
    ensures r.Some? ==> var p := r.value.pitch;
      && i + |p| < |s| && IsLetter(s[i])
      && p == s[i..i + |p|] && (|p| == 1 || (|p| == 2 && s[i + 1] == '#'))
      && IsDigit(s[i + |p|]) && r.value.octave == DigitValue(s[i + |p|])
    ensures r.None? ==> i + 1 >= |s| || !IsLetter(s[i]) || (!IsDigit(s[i + 1]) && (s[i + 1] != '#' || i + 2 >= |s| || !IsDigit(s[i + 2])))
  {
    if i + 2 < |s| && IsLetter(s[i]) && s[i + 1] == '#' && IsDigit(s[i + 2]) then
      Some(Root([s[i], '#'], DigitValue(s[i + 2])))
    else if i + 1 < |s| && IsLetter(s[i]) && IsDigit(s[i + 1]) then
      Some(Root([s[i]], DigitValue(s[i + 1])))
    else None
  }

  /** The leftmost position at or after `from` where the expression matches. */
  function FirstRootIndex(s: string, from: nat): (r: Option<nat>)
    requires from <= |s|
    ensures r.None? <==> forall j :: from <= j < |s| ==> RootAt(s, j).None?
    ensures r.Some? ==> from <= r.value < |s| && RootAt(s, r.value).Some?
    ensures r.Some? ==> forall j :: from <= j < r.value ==> RootAt(s, j).None?
    decreases |s| - from
  {
    if from == |s| then None
    else if RootAt(s, from).Some? then Some(from)
    else FirstRootIndex(s, from + 1)
  }

  /** `root.match(/([A-G]#?)(\d)/)`: unanchored, so the leftmost match anywhere in the token. */
  function MatchRoot(s: string): (r: Option<Root>)
    ensures r.None? <==> forall j :: 0 <= j < |s| ==> RootAt(s, j).None?
    ensures r.Some? ==>
      exists i :: 0 <= i < |s| && RootAt(s, i) == r && forall j :: 0 <= j < i ==> RootAt(s, j).None?
  {
    match FirstRootIndex(s, 0)
    case None => None
    case Some(i) => RootAt(s, i)
  }

  /**
   * `generateChordNotes(root, quality)`: `None` is the `null` returned for an
   * unknown quality or a token without a pitch and octave; otherwise each
   * offset of the quality transposed from the root, in table order. An entry
   * is `None` where the transposer returns `null`.
   */
  function GenerateChordNotes(root: string, quality: string): (r: Option<seq<Option<Note>>>)
    ensures r.None? <==> quality !in SemitoneMap || MatchRoot(root).None?
    ensures r.Some? ==> |r.value| == |SemitoneMap[quality]| == 3
  {
    if quality !in SemitoneMap then None
    else match MatchRoot(root)
      case None => None
      case Some(rt) =>
        var offsets := SemitoneMap[quality];
        SemitoneTable(quality);
        Some(seq(|offsets|, k requires 0 <= k < |offsets| => Transpose(rt.pitch, rt.octave, offsets[k])))
  }

  /**
   * A chord on a root from the table: the first entry is the root itself at
   * the root octave, and each entry lies its quality's offset above the root.
   */
  lemma ChordIntervals(root: string, quality: string)
    requires quality in SemitoneMap && MatchRoot(root).Some?
    requires IndexOf(NoteOrder, MatchRoot(root).value.pitch) >= 0
    ensures var notes := GenerateChordNotes(root, quality).value;
      var rt := MatchRoot(root).value;
      && |notes| == 3
      && notes[0] == Some(Note(rt.pitch, rt.octave))
      && forall k :: 0 <= k < 3 ==>
           notes[k].Some? && IndexOf(NoteOrder, notes[k].value.name) >= 0
           && Semitone(notes[k].value) == Semitone(Note(rt.pitch, rt.octave)) + SemitoneMap[quality][k]
  {
    var notes := GenerateChordNotes(root, quality).value;
    var rt := MatchRoot(root).value;
    var offsets := SemitoneMap[quality];
    SemitoneTable(quality);
    forall k | 0 <= k < 3
      ensures notes[k].Some? && IndexOf(NoteOrder, notes[k].value.name) >= 0
      ensures Semitone(notes[k].value) == Semitone(Note(rt.pitch, rt.octave)) + offsets[k]
    {
      assert notes[k] == Transpose(rt.pitch, rt.octave, offsets[k]);
      TransposeSemitone(rt.pitch, rt.octave, offsets[k]);
    }
    TransposeInRange(rt.pitch, rt.octave, 0);
    IndexOfNoteOrder(IndexOf(NoteOrder, rt.pitch));
  }

  /** So the three notes of such a chord rise strictly: root, third, fifth. */
  lemma ChordAscends(root: string, quality: string)
    requires quality in SemitoneMap && MatchRoot(root).Some?
    requires IndexOf(NoteOrder, MatchRoot(root).value.pitch) >= 0
    ensures var notes := GenerateChordNotes(root, quality).value;
      && (forall k :: 0 <= k < 3 ==> notes[k].Some? && IndexOf(NoteOrder, notes[k].value.name) >= 0)
      && Semitone(notes[0].value) < Semitone(notes[1].value) < Semitone(notes[2].value)
  {
    ChordIntervals(root, quality);
    SemitoneTable(quality);
  }

  /**
   * The expression admits `E#` and `B#`, which are not in the table: the
   * chord is still returned, with `null` in every entry.
   */
  lemma ChordOnUnknownPitch(root: string, quality: string)
    requires quality in SemitoneMap && MatchRoot(root).Some?
    requires MatchRoot(root).value.pitch !in NoteOrder
    ensures GenerateChordNotes(root, quality) == Some([None, None, None])
  {
    var notes := GenerateChordNotes(root, quality).value;
    var rt := MatchRoot(root).value;
    forall k | 0 <= k < 3 ensures notes[k] == None {
      assert notes[k] == Transpose(rt.pitch, rt.octave, SemitoneMap[quality][k]);
    }
    assert notes == [None, None, None];
  }

  /** A match at the very start of the token is the one the expression returns. */
  lemma MatchAtStart(s: string)
    requires RootAt(s, 0).Some?
    ensures MatchRoot(s) == RootAt(s, 0)
  {
    var i :| 0 <= i < |s| && RootAt(s, i) == MatchRoot(s) && forall j :: 0 <= j < i ==> RootAt(s, j).None?;
    assert i == 0;
  }

  /** Every table name is a letter from A to G, alone or followed by `#`. */
  lemma NameShape(k: int)
    requires 0 <= k < |NoteOrder|
    ensures var n := NameAt(k);
      (|n| == 1 || (|n| == 2 && n[1] == '#')) && IsLetter(n[0])
  {
  }

  /**
   * The expression reads back what the transposer writes: the text of a
   * table note with a one-digit octave matches as that pitch and octave.
   */
  lemma MatchNoteText(k: int, octave: nat)
    requires 0 <= k < |NoteOrder| && octave < 10
    ensures MatchRoot(NoteText(Note(NameAt(k), octave))) == Some(Root(NameAt(k), octave))
  {
    var n := NameAt(k);
    var s := NoteText(Note(n, octave));
    NameShape(k);
    assert s == n + [DigitChar(octave)];
    MatchAtStart(s);
  }

  /** Example of a wrap past B: B4 augmented is B4, D#5, G5. */
  lemma AugmentedOnB4()
    ensures GenerateChordNotes("B4", "augmented")
         == Some([Some(Note("B", 4)), Some(Note("D#", 5)), Some(Note("G", 5))])
  {
    MatchAtStart("B4");
    assert MatchRoot("B4") == Some(Root("B", 4));
    IndexOfNoteOrder(11);
    assert IndexOf(NoteOrder, "B") == 11;
    var notes := GenerateChordNotes("B4", "augmented").value;
    TransposeInRange("B", 4, 0);
    TransposeInRange("B", 4, 4);
    TransposeInRange("B", 4, 8);
    assert notes[0] == Some(Note("B", 4));
    assert notes[1] == Some(Note("D#", 5));
    assert notes[2] == Some(Note("G", 5));
    assert notes == [Some(Note("B", 4)), Some(Note("D#", 5)), Some(Note("G", 5))];
  }

  /** `Am` carries no octave digit, so a chord on it is `null` whatever its quality. */
  lemma NoChordOnAm(quality: string)
    ensures GenerateChordNotes("Am", quality) == None
  {
    assert RootAt("Am", 0).None? && RootAt("Am", 1).None?;
  }

  /** The expression is unanchored: in `A10` it finds `A1` and ignores the rest. */
  lemma MatchInsideLongerToken()
    ensures MatchRoot("A10") == Some(Root("A", 1))
  {
    MatchAtStart("A10");
  }

  /** `E#4` passes the expression, and every entry of its chord is `null`. */
  lemma ChordOnESharp()
    ensures MatchRoot("E#4") == Some(Root("E#", 4))
    ensures GenerateChordNotes("E#4", "major") == Some([None, None, None])
  {
    MatchAtStart("E#4");
    assert "E#" !in NoteOrder;
    ChordOnUnknownPitch("E#4", "major");
  }

  // ---------------------------------------------------------------------
  // The table lookup as written

  /**
   * Names every plain JavaScript object inherits from `Object.prototype`.
   * Reading one of them yields a function or an object, never `undefined`.
   */
  const ObjectPrototypeKeys: set<string> := {
    "constructor", "hasOwnProperty", "isPrototypeOf", "propertyIsEnumerable",
    "toString", "toLocaleString", "valueOf", "__proto__",
    "__defineGetter__", "__defineSetter__", "__lookupGetter__", "__lookupSetter__"
  }

  /** What a call of `generateChordNotes` can end in when the lookup is taken as written. */
  datatype ChordOutcome = Notes(notes: seq<Option<Note>>) | Null | Throws

  /**
   * `generateChordNotes` as written: `semitoneMap[type]` also finds members
   * inherited from `Object.prototype`, which pass the `!semitones` test.
   * When the root then matches, `semitones.map` is not a function and the
   * call throws a TypeError.
   */
  function GenerateChordNotesAsWritten(root: string, quality: string): (r: ChordOutcome)
    ensures quality !in ObjectPrototypeKeys ==>
      r == match GenerateChordNotes(root, quality) case Some(n) => Notes(n) case None => Null
    ensures r.Throws? <==> quality in ObjectPrototypeKeys && MatchRoot(root).Some?
    ensures r.Throws? || r == match GenerateChordNotes(root, quality) case Some(n) => Notes(n) case None => Null
  {
    if quality in SemitoneMap then
      match GenerateChordNotes(root, quality) case Some(n) => Notes(n) case None => Null
    else if quality !in ObjectPrototypeKeys || MatchRoot(root).None? then Null
    else Throws
  }

  /** `chord C4 constructor 1m` reaches `.map` on a function and throws, instead of returning `null`. */
  lemma InheritedQualityThrows()
    ensures GenerateChordNotesAsWritten("C4", "constructor") == Throws
    ensures GenerateChordNotes("C4", "constructor") == None
  {
    MatchAtStart("C4");
  }
}
