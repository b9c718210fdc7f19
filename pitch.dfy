/**
 * Pitches as `transposeNoteBySemitones` sees them: a name from the twelve-name
 * ordering and an octave number, moved by a number of semitones.
 */
module Pitch {
  import opened Wrappers
  import opened Text

  /** `noteOrder`: the twelve pitch names from C upwards. */
  const NoteOrder: seq<string> := ["C", "C#", "D", "D#", "E", "F", "F#", "G", "G#", "A", "A#", "B"]

  /** A pitch name and an octave; `NoteText` gives the string the code builds from them. */
  datatype Note = Note(name: string, octave: int)

  /** The string `${name}${octave}`. */
  function NoteText(n: Note): string {
    n.name + IntText(n.octave)
  }

  /** `names.indexOf(x)`: the first position of `x`, or -1. */
  function IndexOf(names: seq<string>, x: string): (r: int)
    ensures -1 <= r < |names|
    ensures r == -1 <==> x !in names
    ensures r >= 0 ==> names[r] == x && forall j :: 0 <= j < r ==> names[j] != x
  {
    IndexFrom(names, x, 0)
  }

  /** The search of `indexOf`, from position `from` on. */
  function IndexFrom(names: seq<string>, x: string, from: nat): (r: int)
    requires from <= |names|
    ensures r == -1 || from <= r < |names|
    ensures r == -1 <==> forall j :: from <= j < |names| ==> names[j] != x
    ensures r >= 0 ==> names[r] == x && forall j :: from <= j < r ==> names[j] != x
    decreases |names| - from
  {
    if from == |names| then -1
    else if names[from] == x then from
    else IndexFrom(names, x, from + 1)
  }

  /** `noteOrder[i]` rendered by a template literal: "undefined" outside the table. */
  function NameAt(i: int): (s: string)
    ensures s in NoteOrder <==> 0 <= i < |NoteOrder|
    ensures s !in NoteOrder ==> s == "undefined"
  {
    if 0 <= i < |NoteOrder| then NoteOrder[i] else "undefined"
  }

  /**
   * `transposeNoteBySemitones(pitch, octave, semitones)`: `None` stands for
   * the `null` returned for a name outside the table.
   */
  function Transpose(pitch: string, octave: int, semitones: int): (r: Option<Note>)
    ensures r.None? <==> pitch !in NoteOrder
    ensures r.Some? ==> octave - 1 <= r.value.octave <= octave + 1
  {
    var current := IndexOf(NoteOrder, pitch);
    if current == -1 then None else Some(Shift(current, octave, semitones))
  }

  /**
   * The arithmetic of `transposeNoteBySemitones` once the index `current` of
   * the name is known: the sum of index and offset is wrapped by twelve at
   * most once, in either direction, moving the octave by one.
   */
  function Shift(current: int, octave: int, semitones: int): (n: Note)
    ensures octave - 1 <= n.octave <= octave + 1
    ensures n.octave == octave <==> 0 <= current + semitones < |NoteOrder|
  {
    var index := current + semitones;
    if index >= |NoteOrder| then Note(NameAt(index - |NoteOrder|), octave + 1)
    else if index < 0 then Note(NameAt(index + |NoteOrder|), octave - 1)
    else Note(NameAt(index), octave)
  }

  /** The twelve names are distinct, so each one's position is its first position. */
  lemma IndexOfNoteOrder(k: int)
    requires 0 <= k < |NoteOrder|
    ensures IndexOf(NoteOrder, NameAt(k)) == k
  {
    assert forall i, j :: 0 <= i < j < |NoteOrder| ==> NoteOrder[i] != NoteOrder[j];
    var r := IndexOf(NoteOrder, NameAt(k));
    assert NoteOrder[r] == NoteOrder[k];
  }

  /** The absolute height of a note in semitones, counting from C of octave 0. */
  function Semitone(n: Note): int
    requires IndexOf(NoteOrder, n.name) >= 0
  {
    12 * n.octave + IndexOf(NoteOrder, n.name)
  }

  /**
   * Within one wrap (an index sum from -12 to 23) the result is the name at
   * the sum modulo 12, one octave up or down per multiple of twelve.
   */
  lemma ShiftInRange(current: int, octave: int, semitones: int)
    requires 0 <= current < |NoteOrder|
    requires -12 <= current + semitones < 24
    ensures var sum := current + semitones;
      Shift(current, octave, semitones) == Note(NameAt(sum % 12), octave + sum / 12)
  {
    var sum := current + semitones;
    if sum >= 12 {
      assert sum % 12 == sum - 12 && sum / 12 == 1;
    } else if sum < 0 {
      assert sum % 12 == sum + 12 && sum / 12 == -1;
    } else {
      assert sum % 12 == sum && sum / 12 == 0;
    }
  }

  lemma TransposeInRange(pitch: string, octave: int, semitones: int)
    requires IndexOf(NoteOrder, pitch) >= 0
    requires -12 <= IndexOf(NoteOrder, pitch) + semitones < 24
    ensures var sum := IndexOf(NoteOrder, pitch) + semitones;
      var r := Transpose(pitch, octave, semitones);
      r.Some? && r.value.name == NameAt(sum % 12) && r.value.octave == octave + sum / 12
  {
    ShiftInRange(IndexOf(NoteOrder, pitch), octave, semitones);
  }

  /** Within one wrap the result lies exactly `semitones` above (or below) the input. */
  lemma ShiftSemitone(current: int, octave: int, semitones: int)
    requires 0 <= current < |NoteOrder|
    requires -12 <= current + semitones < 24
    ensures var n := Shift(current, octave, semitones);
      IndexOf(NoteOrder, n.name) >= 0 && Semitone(n) == 12 * octave + current + semitones
  {
    var sum := current + semitones;
    ShiftInRange(current, octave, semitones);
    var k, o := sum % 12, octave + sum / 12;
    assert Shift(current, octave, semitones) == Note(NameAt(k), o);
    IndexOfNoteOrder(k);
    assert 12 * o + k == 12 * octave + sum;
  }

  lemma TransposeSemitone(pitch: string, octave: int, semitones: int)
    requires IndexOf(NoteOrder, pitch) >= 0
    requires -12 <= IndexOf(NoteOrder, pitch) + semitones < 24
    ensures var r := Transpose(pitch, octave, semitones);
      r.Some? && IndexOf(NoteOrder, r.value.name) >= 0
      && Semitone(r.value) == Semitone(Note(pitch, octave)) + semitones
  {
    ShiftSemitone(IndexOf(NoteOrder, pitch), octave, semitones);
  }

  /** Beyond one wrap the code does not wrap again: the name is "undefined". */
  lemma TransposeWrapsOnce(pitch: string, octave: int, semitones: int)
    requires IndexOf(NoteOrder, pitch) >= 0
    requires IndexOf(NoteOrder, pitch) + semitones >= 24 || IndexOf(NoteOrder, pitch) + semitones < -12
    ensures var r := Transpose(pitch, octave, semitones);
      r.Some? && r.value.name == "undefined"
      && r.value.octave == if semitones > 0 then octave + 1 else octave - 1
  {
  }

  /** Within one wrap, shifting back by the opposite offset from the new name's position restores the note. */
  lemma ShiftRoundTrip(current: int, octave: int, semitones: int)
    requires 0 <= current < |NoteOrder|
    requires -12 <= current + semitones < 24
    ensures var n := Shift(current, octave, semitones);
      IndexOf(NoteOrder, n.name) >= 0
      && Shift(IndexOf(NoteOrder, n.name), n.octave, -semitones) == Note(NameAt(current), octave)
  {
    var sum := current + semitones;
    var k, o := if sum >= 12 then sum - 12 else if sum < 0 then sum + 12 else sum,
                if sum >= 12 then octave + 1 else if sum < 0 then octave - 1 else octave;
    assert Shift(current, octave, semitones) == Note(NameAt(k), o);
    IndexOfNoteOrder(k);
    assert Shift(k, o, -semitones) == Note(NameAt(current), octave);
  }

  /** Within one wrap, transposing back by the opposite offset restores the note. */
  lemma TransposeRoundTrip(pitch: string, octave: int, semitones: int)
    requires IndexOf(NoteOrder, pitch) >= 0
    requires -12 <= IndexOf(NoteOrder, pitch) + semitones < 24
    ensures var r := Transpose(pitch, octave, semitones);
      r.Some? && Transpose(r.value.name, r.value.octave, -semitones) == Some(Note(pitch, octave))
  {
    ShiftRoundTrip(IndexOf(NoteOrder, pitch), octave, semitones);
  }
}
