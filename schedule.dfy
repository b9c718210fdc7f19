/**
 * The line interpreter of `parseAndPlay`: the program text is split into
 * lines, each line is dispatched on its prefix, and every well-formed chord
 * line schedules its chord or bass callback one measure after the previous
 * one. The interpreter's output is what it hands to the transport: which
 * callbacks, at which measure and at which tempo, and when the transport is
 * stopped.
 */
module Schedule {
  import opened Wrappers
  import opened Text
  import opened Pitch
  import opened Chord
  import opened Seqs

  /**
   * A callback handed to `Tone.Transport.schedule`. `measure` is the value of
   * `currentMeasure` and `bpm` the tempo in force when its line was read; the
   * delay the code passes is `Seconds(measure, bpm)`. `duration` is passed to
   * the synthesizer untouched.
   */
  datatype Event =
    | ChordOn(measure: nat, bpm: nat, notes: seq<Option<Note>>, duration: string)
    | BassOn(measure: nat, bpm: nat, note: Note, duration: string)

  /** After some lines: the callbacks scheduled so far, `currentMeasure` and `Tone.Transport.bpm.value`. */
  datatype State = State(events: seq<Event>, measure: nat, bpm: nat)

  /** The tempo every run starts from. */
  const DefaultBpm: nat := 120

  const Start: State := State([], 0, DefaultBpm)

  /** `bassline`: the bass note played under four chord tokens. */
  const Bassline: map<string, Note> :=
    map["Am" := Note("A", 2), "Em" := Note("E", 2), "F" := Note("F", 2), "C" := Note("C", 2)]

  /** The bass notes the table can hand out. */
  const BassNotes: set<Note> := Bassline.Values

  /** The duration of every bass note, `'1n'`. */
  const WholeNote: string := "1n"

  /** `chord && type && duration` after `const [_, chord, type, duration] = command.split(' ')`. */
  predicate HasChordTokens(parts: seq<string>) {
    |parts| >= 4 && parts[1] != [] && parts[2] != [] && parts[3] != []
  }

  /** A line the `chord` branch acts on: it starts with `chord` and has the three tokens. */
  predicate IsChordLine(line: string) {
    StartsWith(line, "chord") && HasChordTokens(Split(line, ' '))
  }

  /**
   * The callbacks one chord line schedules at `measure`: the chord when
   * `generateChordNotes` returns notes, then the bass note when the chord
   * token is a key of the bassline table.
   */
  function LineEvents(chord: string, quality: string, duration: string, measure: nat, bpm: nat): (r: seq<Event>)
    ensures |r| <= 2
    ensures forall k :: 0 <= k < |r| ==> r[k].measure == measure && r[k].bpm == bpm
    ensures (exists k :: 0 <= k < |r| && r[k].ChordOn?) <==> GenerateChordNotes(chord, quality).Some?
    ensures (exists k :: 0 <= k < |r| && r[k].BassOn?) <==> chord in {"Am", "Em", "F", "C"}
    ensures forall k :: 0 <= k < |r| && r[k].ChordOn? ==>
      k == 0 && r[k].notes == GenerateChordNotes(chord, quality).value && r[k].duration == duration
    ensures forall k :: 0 <= k < |r| && r[k].BassOn? ==>
      k == |r| - 1 && r[k].note == Note([chord[0]], 2) && r[k].note in BassNotes && r[k].duration == WholeNote
  {
    var chordEvents :=
      match GenerateChordNotes(chord, quality)
      case Some(notes) => [ChordOn(measure, bpm, notes, duration)]
      case None => [];
    var bassEvents := if chord in Bassline then [BassOn(measure, bpm, Bassline[chord], WholeNote)] else [];
    var r := chordEvents + bassEvents;
    assert chordEvents != [] ==> r[0].ChordOn?;
    assert bassEvents != [] ==> r[|r| - 1].BassOn?;
    r
  }

  /**
   * A table key carries no octave digit, so its chord is never generated:
   * a chord line schedules at most one callback, never a chord together
   * with a bass note.
   */
  lemma OneCallbackPerLine(chord: string, quality: string, duration: string, measure: nat, bpm: nat)
    ensures |LineEvents(chord, quality, duration, measure, bpm)| <= 1
  {
    if chord in Bassline {
      NoDigitNoRoot(chord);
    }
  }

  /**
   * One pass of the `commands.forEach` body. The prefixes are tested in the
   * code's order; a `rest` line only logs, and any other line is ignored.
   */
  function Step(st: State, line: string): State {
    if StartsWith(line, "setTempo") then
      match MatchDigits(line)
      case None => st
      case Some(digits) => st.(bpm := Value(digits))
    else if StartsWith(line, "chord") then
      var parts := Split(line, ' ');
      if HasChordTokens(parts) then
        State(st.events + LineEvents(parts[1], parts[2], parts[3], st.measure, st.bpm), st.measure + 1, st.bpm)
      else st
    else st
  }

  /** The state after reading `lines` in order from `st`. */
  function Run(st: State, lines: seq<string>): State {
    if lines == [] then st
    else Step(Run(st, lines[..|lines| - 1]), lines[|lines| - 1])
  }

  /** The state after the interpreter has read `lines` in order, starting from `Start`. */
  function Interpret(lines: seq<string>): State {
    Run(Start, lines)
  }

  /** The number of chord lines among `lines`. */
  function ChordLineCount(lines: seq<string>): nat {
    if lines == [] then 0
    else ChordLineCount(lines[..|lines| - 1]) + (if IsChordLine(lines[|lines| - 1]) then 1 else 0)
  }

  /**
   * `Tone.Time('1m').toSeconds() * measure` at a tempo of `bpm`: a 4/4
   * measure lasts 240 / bpm seconds. `None` for a tempo of zero, where the
   * JavaScript value is not a finite number.
   */
  function Seconds(measure: nat, bpm: nat): (t: Option<real>)
    ensures t.Some? <==> bpm > 0
    ensures t.Some? ==> t.value * (bpm as real) == 240.0 * (measure as real)
  {
    if bpm == 0 then None else Some(240.0 * (measure as real) / (bpm as real))
  }

  /**
   * The order of the scheduled callbacks: measures never decrease and stay
   * below the measure count, a measure holds at most a chord followed by a
   * bass note, every chord has three entries and every bass note comes
   * from the table and lasts a whole note.
   */
  ghost predicate WellScheduled(st: State) {
    && (forall i :: 0 <= i < |st.events| ==> st.events[i].measure < st.measure)
    && (forall i, j :: 0 <= i < j < |st.events| ==> st.events[i].measure <= st.events[j].measure)
    && (forall i, j :: 0 <= i < j < |st.events| && st.events[i].measure == st.events[j].measure ==>
          j == i + 1 && st.events[i].ChordOn? && st.events[j].BassOn?)
    && (forall i :: 0 <= i < |st.events| && st.events[i].ChordOn? ==> |st.events[i].notes| == 3)
    && (forall i :: 0 <= i < |st.events| && st.events[i].BassOn? ==>
          st.events[i].note in BassNotes && st.events[i].duration == WholeNote)
  }

  /**
   * One pass of the `commands.forEach` body on the callbacks scheduled so
   * far, the measure counter and the tempo.
   */
  method PlayLine(events: seq<Event>, measure: nat, bpm: nat, line: string)
    returns (events': seq<Event>, measure': nat, bpm': nat)
    ensures State(events', measure', bpm') == Step(State(events, measure, bpm), line)
  {
    events', measure', bpm' := events, measure, bpm;
    if StartsWith(line, "setTempo") {
      var digits := MatchDigits(line);
      if digits.Some? {
        bpm' := Value(digits.value);
      }
    } else if StartsWith(line, "chord") {
      var parts := Split(line, ' ');
      if HasChordTokens(parts) {
        var chord, quality, duration := parts[1], parts[2], parts[3];
        var notes := GenerateChordNotes(chord, quality);
        var scheduled := [];
        if notes.Some? {
          scheduled := scheduled + [ChordOn(measure, bpm, notes.value, duration)];
        }
        if chord in Bassline {
          scheduled := scheduled + [BassOn(measure, bpm, Bassline[chord], WholeNote)];
        }
        assert scheduled == LineEvents(chord, quality, duration, measure, bpm);
        events' := events + scheduled;
        measure' := measure + 1;
      }
    }
  }

  /**
   * `parseAndPlay(input)` without the audio: the lines are interpreted in
   * order, and the transport is stopped `currentMeasure` measures after the
   * start, at the final tempo.
   */
  method ParseAndPlay(input: string) returns (events: seq<Event>, measure: nat, bpm: nat, stopAt: Option<real>)
    ensures State(events, measure, bpm) == Interpret(Split(input, '\n'))
    ensures measure == ChordLineCount(Split(input, '\n'))
    ensures WellScheduled(State(events, measure, bpm))
    ensures stopAt == Seconds(measure, bpm)
  {
    var lines := Split(input, '\n');
    bpm := DefaultBpm;
    events, measure := [], 0;
    var i := 0;
    while i < |lines|
      invariant i <= |lines|
      invariant State(events, measure, bpm) == Interpret(lines[..i])
    {
      events, measure, bpm := PlayLine(events, measure, bpm, lines[i]);
      RunPrefix(Start, lines, i);
      i := i + 1;
    }
    assert lines[..i] == lines;
    MeasureIsChordLineCount(lines);
    InterpretWellScheduled(lines);
    stopAt := Seconds(measure, bpm);
  }

  // ---------------------------------------------------------------------
  // Properties of the interpreter

  /** Reading one more line of `lines` is one more step. */
  lemma RunPrefix(st: State, lines: seq<string>, i: nat)
    requires i < |lines|
    ensures Run(st, lines[..i + 1]) == Step(Run(st, lines[..i]), lines[i])
  {
    assert lines[..i + 1][..i] == lines[..i];
  }

  /** The measure counter is the number of chord lines read, whatever their chords turned into. */
  lemma {:induction false} MeasureIsChordLineCount(lines: seq<string>)
    ensures Interpret(lines).measure == ChordLineCount(lines)
  {
    if lines != [] {
      var prefix, line := lines[..|lines| - 1], lines[|lines| - 1];
      MeasureIsChordLineCount(prefix);
      assert StartsWith(line, "chord") ==> !StartsWith(line, "setTempo") by {
        if StartsWith(line, "chord") { assert line[0] == 'c'; }
      }
    }
  }

  /**
   * The k-th chord line (from 0) schedules its callbacks at measure k, at the
   * tempo then in force, and moves the counter on by exactly one.
   */
  lemma ChordLineSchedules(lines: seq<string>, line: string)
    requires IsChordLine(line)
    ensures var st, parts := Interpret(lines), Split(line, ' ');
      Interpret(lines + [line])
        == State(st.events + LineEvents(parts[1], parts[2], parts[3], ChordLineCount(lines), st.bpm),
                 ChordLineCount(lines) + 1, st.bpm)
  {
    PrefixOf(lines, line);
    MeasureIsChordLineCount(lines);
    assert line[0] == 'c';
  }

  /** Any other line schedules nothing and leaves the counter alone; only `setTempo` can change the tempo. */
  lemma OtherLineKeepsSchedule(lines: seq<string>, line: string)
    requires !IsChordLine(line)
    ensures Interpret(lines + [line]).events == Interpret(lines).events
    ensures Interpret(lines + [line]).measure == Interpret(lines).measure
    ensures !StartsWith(line, "setTempo") ==> Interpret(lines + [line]) == Interpret(lines)
  {
    PrefixOf(lines, line);
  }

  /**
   * A `setTempo` line sets the tempo to the value of the first run of digits
   * anywhere in it, and leaves it alone when it has no digit.
   */
  lemma TempoLine(lines: seq<string>, line: string)
    requires StartsWith(line, "setTempo")
    ensures var st := Interpret(lines + [line]);
      && st.events == Interpret(lines).events && st.measure == Interpret(lines).measure
      && ((forall j :: 0 <= j < |line| ==> !IsDigit(line[j])) ==> st.bpm == Interpret(lines).bpm)
      && forall i, e :: IsFirstDigitRun(line, i, e) ==> st.bpm == Value(line[i..e])
  {
    PrefixOf(lines, line);
    var m := MatchDigits(line);
    if m.Some? {
      var i, e :| IsFirstDigitRun(line, i, e) && m.value == line[i..e];
      forall i', e' | IsFirstDigitRun(line, i', e') ensures Interpret(lines + [line]).bpm == Value(line[i'..e']) {
        FirstDigitRunUnique(line, i, e, i', e');
      }
    }
  }

  /** Every run starts at 120 bpm, and a program without `setTempo` lines keeps it for every callback. */
  lemma {:induction false} TempoWithoutTempoLines(lines: seq<string>)
    requires forall i :: 0 <= i < |lines| ==> !StartsWith(lines[i], "setTempo")
    ensures Interpret(lines).bpm == DefaultBpm
    ensures forall i :: 0 <= i < |Interpret(lines).events| ==> Interpret(lines).events[i].bpm == DefaultBpm
  {
    if lines != [] {
      TempoWithoutTempoLines(lines[..|lines| - 1]);
    }
  }

  /** The callbacks of one chord line, placed after those of earlier measures, keep the order. */
  lemma AppendWellScheduled(st: State, added: seq<Event>)
    requires WellScheduled(st)
    requires |added| <= 2
    requires forall k :: 0 <= k < |added| ==> added[k].measure == st.measure
    requires |added| == 2 ==> added[0].ChordOn? && added[1].BassOn?
    requires forall k :: 0 <= k < |added| && added[k].ChordOn? ==> |added[k].notes| == 3
    requires forall k :: 0 <= k < |added| && added[k].BassOn? ==>
      added[k].note in BassNotes && added[k].duration == WholeNote
    ensures WellScheduled(State(st.events + added, st.measure + 1, st.bpm))
  {
    var events := st.events + added;
    var n := |st.events|;
    assert forall i :: 0 <= i < n ==> events[i] == st.events[i];
    assert forall i :: n <= i < |events| ==> events[i] == added[i - n];
    forall i, j | 0 <= i < j < |events| && events[i].measure == events[j].measure
      ensures j == i + 1 && events[i].ChordOn? && events[j].BassOn?
    {
      if n <= i {
        assert added[i - n].measure == added[j - n].measure;
      }
    }
  }

  lemma StepWellScheduled(st: State, line: string)
    requires WellScheduled(st)
    ensures WellScheduled(Step(st, line))
  {
    if !StartsWith(line, "setTempo") && StartsWith(line, "chord") {
      var parts := Split(line, ' ');
      if HasChordTokens(parts) {
        var added := LineEvents(parts[1], parts[2], parts[3], st.measure, st.bpm);
        assert |added| == 2 ==> added[0].ChordOn? && added[1].BassOn?;
        AppendWellScheduled(st, added);
      }
    }
  }

  /** Every run schedules its callbacks in the order `WellScheduled` describes. */
  lemma {:induction false} InterpretWellScheduled(lines: seq<string>)
    ensures WellScheduled(Interpret(lines))
  {
    if lines != [] {
      InterpretWellScheduled(lines[..|lines| - 1]);
      StepWellScheduled(Interpret(lines[..|lines| - 1]), lines[|lines| - 1]);
    }
  }

  /** Tokens after the fourth are never read: appending them changes nothing. */
  lemma ExtraTokensIgnored(st: State, line: string, more: string)
    requires IsChordLine(line)
    ensures IsChordLine(line + " " + more) && Step(st, line + " " + more) == Step(st, line)
  {
    SplitAround(line, more, ' ');
    assert line + " " + more == line + [' '] + more;
    var parts := Split(line, ' ');
    var longer := Split(line + " " + more, ' ');
    assert longer[..|parts|] == parts;
    assert StartsWith(line + " " + more, "chord") by { assert (line + " " + more)[..5] == line[..5]; }
    assert line[0] == 'c';
  }

  // ---------------------------------------------------------------------
  // Time in seconds

  /** Halving the tempo doubles every delay. */
  lemma SecondsLinearInTempo(measure: nat, bpm: nat)
    requires bpm > 0
    ensures Seconds(measure, bpm).value == 2.0 * Seconds(measure, 2 * bpm).value
  {
  }

  /** At one tempo a later measure never gets a smaller delay, and a strictly later one gets a larger one. */
  lemma SecondsMonotone(m1: nat, m2: nat, bpm: nat)
    requires bpm > 0 && m1 <= m2
    ensures Seconds(m1, bpm).value <= Seconds(m2, bpm).value
    ensures m1 < m2 ==> Seconds(m1, bpm).value < Seconds(m2, bpm).value
  {
    var b := bpm as real;
    assert 240.0 * (m1 as real) <= 240.0 * (m2 as real);
    assert Seconds(m1, bpm).value * b <= Seconds(m2, bpm).value * b;
  }

  /**
   * Across two tempos a later callback gets the smaller delay exactly when
   * its measure per beat-rate is smaller: m2 / bpm2 < m1 / bpm1.
   */
  lemma SecondsCompare(m1: nat, bpm1: nat, m2: nat, bpm2: nat)
    requires bpm1 > 0 && bpm2 > 0
    ensures Seconds(m2, bpm2).value < Seconds(m1, bpm1).value <==> m2 * bpm1 < m1 * bpm2
  {
    var x, y := Seconds(m1, bpm1).value, Seconds(m2, bpm2).value;
    var b1, b2 := bpm1 as real, bpm2 as real;
    assert x * b1 == 240.0 * (m1 as real);
    assert y * b2 == 240.0 * (m2 as real);
    assert x * (b1 * b2) == 240.0 * ((m1 * bpm2) as real);
    assert y * (b1 * b2) == 240.0 * ((m2 * bpm1) as real);
    assert b1 * b2 > 0.0;
  }

  /**
   * A small raise, from 120 to 121 bpm, gives a later measure a smaller delay
   * only once the counter is past 120.
   */
  lemma SmallRaiseLateMeasures()
    ensures Seconds(122, 121).value < Seconds(121, 120).value
    ensures Seconds(1, 120).value < Seconds(2, 121).value
  {
    SecondsCompare(121, 120, 122, 121);
    SecondsCompare(2, 121, 1, 120);
  }

  /** With no chord line nothing is scheduled and the measure counter stays at 0. */
  lemma {:induction false} NothingWithoutChords(lines: seq<string>)
    requires ChordLineCount(lines) == 0
    ensures Interpret(lines).events == [] && Interpret(lines).measure == 0
  {
    if lines != [] {
      var prefix, line := lines[..|lines| - 1], lines[|lines| - 1];
      NothingWithoutChords(prefix);
      assert lines == prefix + [line];
      OtherLineKeepsSchedule(prefix, line);
    }
  }

  /** So the transport is stopped with a delay of 0. */
  lemma StopAtZeroWithoutChords(lines: seq<string>)
    requires ChordLineCount(lines) == 0 && Interpret(lines).bpm > 0
    ensures Seconds(Interpret(lines).measure, Interpret(lines).bpm) == Some(0.0)
  {
    var st := Interpret(lines);
    NothingWithoutChords(lines);
    SecondsAtStart(st.measure, st.bpm);
  }

  /** Measure 0 has a delay of 0, whatever the tempo. */
  lemma SecondsAtStart(measure: nat, bpm: nat)
    requires measure == 0 && bpm > 0
    ensures Seconds(measure, bpm) == Some(0.0)
  {
  }

  /**
   * Without `setTempo` lines every delay is taken at 120 bpm, so the delays
   * never decrease and all of them come before the stop time.
   */
  lemma ConstantTempoOrdered(lines: seq<string>)
    requires forall i :: 0 <= i < |lines| ==> !StartsWith(lines[i], "setTempo")
    ensures var st := Interpret(lines);
      && st.bpm == DefaultBpm
      && (forall i :: 0 <= i < |st.events| ==> st.events[i].bpm == DefaultBpm)
      && (forall i, j :: 0 <= i < j < |st.events| ==>
            Seconds(st.events[i].measure, st.events[i].bpm).value <= Seconds(st.events[j].measure, st.events[j].bpm).value)
      && (forall i :: 0 <= i < |st.events| ==>
            Seconds(st.events[i].measure, st.events[i].bpm).value < Seconds(st.measure, st.bpm).value)
  {
    var st := Interpret(lines);
    TempoWithoutTempoLines(lines);
    InterpretWellScheduled(lines);
    forall i, j | 0 <= i < j < |st.events|
      ensures Seconds(st.events[i].measure, st.events[i].bpm).value <= Seconds(st.events[j].measure, st.events[j].bpm).value
    {
      SecondsMonotone(st.events[i].measure, st.events[j].measure, DefaultBpm);
    }
    forall i | 0 <= i < |st.events|
      ensures Seconds(st.events[i].measure, st.events[i].bpm).value < Seconds(st.measure, st.bpm).value
    {
      SecondsMonotone(st.events[i].measure, st.measure, DefaultBpm);
    }
  }

  // ---------------------------------------------------------------------
  // Programs

  /** The text of a chord command: `chord` and three tokens, one space apart. */
  function ChordCommand(chord: string, quality: string, duration: string): string {
    "chord " + chord + " " + quality + " " + duration
  }

  /** The text of a tempo command: `setTempo`, then text, a number and more text. */
  function TempoCommand(pre: string, n: nat, post: string): string {
    "setTempo" + pre + DecimalText(n) + post
  }

  /** A chord command with three non-empty tokens is a chord line with those tokens. */
  lemma ChordLineTokens(chord: string, quality: string, duration: string)
    requires chord != [] && quality != [] && duration != []
    requires ' ' !in chord && ' ' !in quality && ' ' !in duration
    ensures IsChordLine(ChordCommand(chord, quality, duration))
    ensures Split(ChordCommand(chord, quality, duration), ' ') == ["chord", chord, quality, duration]
  {
    var parts := ["chord", chord, quality, duration];
    var line := ChordCommand(chord, quality, duration);
    JoinCons(quality, [duration], ' ');
    JoinCons(chord, [quality, duration], ' ');
    JoinCons("chord", [chord, quality, duration], ' ');
    assert [quality] + [duration] == [quality, duration];
    assert [chord] + [quality, duration] == [chord, quality, duration];
    assert ["chord"] + [chord, quality, duration] == parts;
    assert Join(parts, ' ') == line;
    SplitJoin(parts, ' ');
    assert line[..5] == "chord";
  }

  /** Reading such a line schedules that line's callbacks at the current measure and tempo. */
  lemma StepChordLine(st: State, chord: string, quality: string, duration: string)
    requires chord != [] && quality != [] && duration != []
    requires ' ' !in chord && ' ' !in quality && ' ' !in duration
    ensures Step(st, ChordCommand(chord, quality, duration))
         == State(st.events + LineEvents(chord, quality, duration, st.measure, st.bpm), st.measure + 1, st.bpm)
  {
    ChordLineTokens(chord, quality, duration);
    assert ChordCommand(chord, quality, duration)[0] == 'c';
  }

  /** `setTempo(90)` and its like: the number after digit-free text is the new tempo, and nothing else changes. */
  lemma TempoLineWithNumber(st: State, pre: string, n: nat, post: string)
    requires forall j :: 0 <= j < |pre| ==> !IsDigit(pre[j])
    requires post == [] || !IsDigit(post[0])
    ensures Step(st, TempoCommand(pre, n, post)) == st.(bpm := n)
  {
    var line := TempoCommand(pre, n, post);
    assert line == ("setTempo" + pre) + DecimalText(n) + post;
    assert StartsWith(line, "setTempo") by { assert line[..8] == "setTempo"; }
    var head := "setTempo" + pre;
    forall j | 0 <= j < |head| ensures !IsDigit(head[j]) {
      if j >= 8 { assert head[j] == pre[j - 8]; }
    }
    MatchDigitsOfNumber(head, n, post);
  }

  /** Reading more lines carries on from the state the first ones left. */
  lemma {:induction false} RunAppend(st: State, first: seq<string>, more: seq<string>)
    ensures Run(st, first + more) == Run(Run(st, first), more)
    decreases |more|
  {
    if more == [] {
      assert first + more == first;
    } else {
      var n := |more| - 1;
      RunAppend(st, first, more[..n]);
      LastSplit(first, more);
      RunSnoc(st, first + more[..n], more[n]);
      RunSnoc(Run(st, first), more[..n], more[n]);
    }
  }

  /** Reading one more line is one more step. */
  lemma RunSnoc(st: State, lines: seq<string>, line: string)
    ensures Run(st, lines + [line]) == Step(Run(st, lines), line)
  {
    assert (lines + [line])[..|lines|] == lines;
  }

  /** A token without a digit never matches the root expression. */
  lemma NoDigitNoRoot(s: string)
    requires forall j :: 0 <= j < |s| ==> !IsDigit(s[j])
    ensures MatchRoot(s) == None
  {
    forall j | 0 <= j < |s| ensures RootAt(s, j).None? {
      if j + 1 < |s| { assert !IsDigit(s[j + 1]); }
      if j + 2 < |s| { assert !IsDigit(s[j + 2]); }
    }
  }

  /** A chord line whose chord token is a bassline key schedules only its bass note. */
  lemma BassOnlyLine(st: State, chord: string, quality: string, duration: string)
    requires chord in Bassline && quality != [] && ' ' !in quality && duration != [] && ' ' !in duration
    ensures Step(st, ChordCommand(chord, quality, duration))
         == State(st.events + [BassOn(st.measure, st.bpm, Bassline[chord], WholeNote)], st.measure + 1, st.bpm)
  {
    NoDigitNoRoot(chord);
    StepChordLine(st, chord, quality, duration);
  }

  /**
   * Four chord lines whose chord tokens are bassline keys schedule their
   * four bass notes one measure apart, and no chord at all.
   */
  lemma FourBassLines(st: State, c1: string, c2: string, c3: string, c4: string,
                      q1: string, q2: string, q3: string, q4: string, d: string)
    requires c1 in Bassline && c2 in Bassline && c3 in Bassline && c4 in Bassline
    requires q1 != [] && q2 != [] && q3 != [] && q4 != [] && d != []
    requires ' ' !in q1 && ' ' !in q2 && ' ' !in q3 && ' ' !in q4 && ' ' !in d
    ensures Run(st, [ChordCommand(c1, q1, d), ChordCommand(c2, q2, d), ChordCommand(c3, q3, d), ChordCommand(c4, q4, d)])
         == State(st.events + [BassOn(st.measure, st.bpm, Bassline[c1], WholeNote),
                               BassOn(st.measure + 1, st.bpm, Bassline[c2], WholeNote),
                               BassOn(st.measure + 2, st.bpm, Bassline[c3], WholeNote),
                               BassOn(st.measure + 3, st.bpm, Bassline[c4], WholeNote)],
                  st.measure + 4, st.bpm)
  {
    var l1, l2, l3, l4 := ChordCommand(c1, q1, d), ChordCommand(c2, q2, d), ChordCommand(c3, q3, d), ChordCommand(c4, q4, d);
    var s1 := State(st.events + [BassOn(st.measure, st.bpm, Bassline[c1], WholeNote)], st.measure + 1, st.bpm);
    var s2 := State(s1.events + [BassOn(s1.measure, s1.bpm, Bassline[c2], WholeNote)], s1.measure + 1, s1.bpm);
    var s3 := State(s2.events + [BassOn(s2.measure, s2.bpm, Bassline[c3], WholeNote)], s2.measure + 1, s2.bpm);
    var s4 := State(s3.events + [BassOn(s3.measure, s3.bpm, Bassline[c4], WholeNote)], s3.measure + 1, s3.bpm);
    BassOnlyLine(st, c1, q1, d);
    BassOnlyLine(s1, c2, q2, d);
    BassOnlyLine(s2, c3, q3, d);
    BassOnlyLine(s3, c4, q4, d);
    RunSnoc(st, [], l1);
    RunSnoc(st, [l1], l2);
    RunSnoc(st, [l1, l2], l3);
    RunSnoc(st, [l1, l2, l3], l4);
    SnocFour(l1, l2, l3, l4);
    AppendFour(st.events, BassOn(st.measure, st.bpm, Bassline[c1], WholeNote),
               BassOn(st.measure + 1, st.bpm, Bassline[c2], WholeNote),
               BassOn(st.measure + 2, st.bpm, Bassline[c3], WholeNote),
               BassOn(st.measure + 3, st.bpm, Bassline[c4], WholeNote));
    assert Run(st, [l1]) == s1;
    assert Run(st, [l1, l2]) == s2;
    assert Run(st, [l1, l2, l3]) == s3;
  }

  /** The lines of the program the editor opens with; the last one is empty. */
  const DefaultLines: seq<string> :=
    ["setTempo(120)", "chord Am minor 1m", "chord Em minor 1m", "chord F major 1m", "chord C major 1m", ""]

  /** The program the editor opens with. */
  const DefaultProgram: string := Join(DefaultLines, '\n')

  /** Its lines: a tempo command and four chord commands, all with whole-measure durations. */
  lemma DefaultLineCommands()
    ensures DefaultLines
         == [TempoCommand("(", 120, ")"), ChordCommand("Am", "minor", "1m"), ChordCommand("Em", "minor", "1m"),
             ChordCommand("F", "major", "1m"), ChordCommand("C", "major", "1m"), ""]
  {
    assert DecimalText(120) == "120";
    assert TempoCommand("(", 120, ")") == "setTempo(120)";
    assert ChordCommand("Am", "minor", "1m") == "chord Am minor 1m";
    assert ChordCommand("Em", "minor", "1m") == "chord Em minor 1m";
    assert ChordCommand("F", "major", "1m") == "chord F major 1m";
    assert ChordCommand("C", "major", "1m") == "chord C major 1m";
  }

  /** Its text. */
  lemma DefaultProgramText()
    ensures DefaultProgram == "setTempo(120)" + "\n" + ("chord Am minor 1m" + "\n" + ("chord Em minor 1m" + "\n"
                            + ("chord F major 1m" + "\n" + ("chord C major 1m" + "\n" + ""))))
  {
    JoinSix("setTempo(120)", "chord Am minor 1m", "chord Em minor 1m", "chord F major 1m", "chord C major 1m", "", '\n');
  }

  /** Six lines joined: each followed by the separator but the last. */
  lemma JoinSix(l0: string, l1: string, l2: string, l3: string, l4: string, l5: string, c: char)
    ensures Join([l0, l1, l2, l3, l4, l5], c) == l0 + [c] + (l1 + [c] + (l2 + [c] + (l3 + [c] + (l4 + [c] + l5))))
  {
    JoinCons(l4, [l5], c);
    JoinCons(l3, [l4, l5], c);
    JoinCons(l2, [l3, l4, l5], c);
    JoinCons(l1, [l2, l3, l4, l5], c);
    JoinCons(l0, [l1, l2, l3, l4, l5], c);
    ConsFive(l0, l1, l2, l3, l4, l5);
  }

  /** `split('\n')` gives back its lines. */
  lemma DefaultProgramLines()
    ensures Split(DefaultProgram, '\n') == DefaultLines
  {
    forall i | 0 <= i < |DefaultLines| ensures '\n' !in DefaultLines[i] {
    }
    SplitJoin(DefaultLines, '\n');
  }

  /** An empty line changes nothing. */
  lemma EmptyLineStep(st: State)
    ensures Step(st, "") == st
  {
    assert Split("", ' ') == [""];
  }

  /**
   * A tempo command, four chord lines whose chord tokens are bassline keys,
   * then an empty line: four bass notes at the new tempo, on measures 0 to 3.
   */
  lemma TempoAndFourBassLines(pre: string, n: nat, post: string, c1: string, c2: string, c3: string, c4: string,
                              q1: string, q2: string, q3: string, q4: string, d: string)
    requires forall j :: 0 <= j < |pre| ==> !IsDigit(pre[j])
    requires post == [] || !IsDigit(post[0])
    requires c1 in Bassline && c2 in Bassline && c3 in Bassline && c4 in Bassline
    requires q1 != [] && q2 != [] && q3 != [] && q4 != [] && d != []
    requires ' ' !in q1 && ' ' !in q2 && ' ' !in q3 && ' ' !in q4 && ' ' !in d
    ensures Run(Start, [TempoCommand(pre, n, post), ChordCommand(c1, q1, d), ChordCommand(c2, q2, d),
                        ChordCommand(c3, q3, d), ChordCommand(c4, q4, d), ""])
         == State([BassOn(0, n, Bassline[c1], WholeNote), BassOn(1, n, Bassline[c2], WholeNote),
                   BassOn(2, n, Bassline[c3], WholeNote), BassOn(3, n, Bassline[c4], WholeNote)], 4, n)
  {
    var t := TempoCommand(pre, n, post);
    var l1, l2, l3, l4 := ChordCommand(c1, q1, d), ChordCommand(c2, q2, d), ChordCommand(c3, q3, d), ChordCommand(c4, q4, d);
    var chords := [l1, l2, l3, l4];
    var s1 := Start.(bpm := n);
    var bass := [BassOn(0, n, Bassline[c1], WholeNote), BassOn(1, n, Bassline[c2], WholeNote),
                 BassOn(2, n, Bassline[c3], WholeNote), BassOn(3, n, Bassline[c4], WholeNote)];
    Framed(t, l1, l2, l3, l4, "");
    EmptyPrefix(bass);
    RunSnoc(Start, [], t);
    TempoLineWithNumber(Start, pre, n, post);
    RunAppend(Start, [t], chords);
    FourBassLines(s1, c1, c2, c3, c4, q1, q2, q3, q4, d);
    RunSnoc(Start, [t] + chords, "");
    EmptyLineStep(Run(Start, [t] + chords));
  }

  /** Reading its lines: the tempo line, the four chord lines, then the empty line. */
  lemma DefaultRun()
    ensures Run(Start, DefaultLines)
         == State([BassOn(0, 120, Note("A", 2), WholeNote), BassOn(1, 120, Note("E", 2), WholeNote),
                   BassOn(2, 120, Note("F", 2), WholeNote), BassOn(3, 120, Note("C", 2), WholeNote)], 4, 120)
  {
    DefaultLineCommands();
    assert "Am" in Bassline && "Em" in Bassline && "F" in Bassline && "C" in Bassline;
    TempoAndFourBassLines("(", 120, ")", "Am", "Em", "F", "C", "minor", "minor", "major", "major", "1m");
  }

  /**
   * Its chord tokens carry no octave digit, so it schedules no chord at all:
   * only the bass notes A2, E2, F2 and C2 on measures 0 to 3, and the
   * transport stops after four measures, 8 seconds at 120 bpm.
   */
  lemma DefaultProgramPlaysBassOnly()
    ensures Interpret(Split(DefaultProgram, '\n'))
         == State([BassOn(0, 120, Note("A", 2), WholeNote), BassOn(1, 120, Note("E", 2), WholeNote),
                   BassOn(2, 120, Note("F", 2), WholeNote), BassOn(3, 120, Note("C", 2), WholeNote)], 4, 120)
    ensures Seconds(4, 120) == Some(8.0)
  {
    DefaultProgramLines();
    DefaultRun();
  }

  /**
   * The delay is worked out from the tempo in force when a line is read, so
   * raising the tempo part-way can give a later measure a smaller delay. After
   * two chord lines at 60 bpm (`setTempo 60`, then two `chord C4 major 1m`
   * lines, say), the last callback is at measure 1 with a delay of 4
   * seconds; after `setTempo 240` the next chord line's callback is at
   * measure 2 with a delay of only 2 seconds.
   */
  lemma TempoRaiseShortensLaterDelay(st: State, chord: string, quality: string, duration: string)
    requires chord != [] && quality != [] && duration != []
    requires ' ' !in chord && ' ' !in quality && ' ' !in duration
    requires GenerateChordNotes(chord, quality).Some?
    requires st.measure == 2 && st.bpm == 60 && st.events != []
    requires st.events[|st.events| - 1].measure == 1 && st.events[|st.events| - 1].bpm == 60
    ensures var after := Step(Step(st, TempoCommand(" ", 240, "")), ChordCommand(chord, quality, duration));
      var last := st.events[|st.events| - 1];
      && |after.events| > |st.events|
      && after.events[|st.events|].measure == 2 && after.events[|st.events|].bpm == 240
      && Seconds(last.measure, last.bpm) == Some(4.0)
      && Seconds(after.events[|st.events|].measure, after.events[|st.events|].bpm) == Some(2.0)
  {
    TempoLineWithNumber(st, " ", 240, "");
    StepChordLine(st.(bpm := 240), chord, quality, duration);
    TempoExampleDelays();
  }

  /** Measure 1 at 60 bpm and measure 2 at 240 bpm. */
  lemma TempoExampleDelays()
    ensures Seconds(1, 60) == Some(4.0) && Seconds(2, 240) == Some(2.0)
  {
  }

  // ---------------------------------------------------------------------
  // The bassline lookup as written

  /**
   * `if (bassline[chord])` as written: a name inherited from
   * `Object.prototype` reads as a function, which is truthy, so a bass
   * callback is scheduled for it too; at playback it hands that function to
   * the synthesizer as a note.
   */
  predicate SchedulesBassAsWritten(chord: string) {
    chord in Bassline || chord in ObjectPrototypeKeys
  }

  /**
   * A chord line whose chord token holds no digit and is no key of the
   * table schedules nothing and only advances the measure.
   */
  lemma SilentChordLine(st: State, chord: string, quality: string, duration: string)
    requires chord != [] && ' ' !in chord && chord !in Bassline
    requires forall j :: 0 <= j < |chord| ==> !IsDigit(chord[j])
    requires quality != [] && ' ' !in quality && duration != [] && ' ' !in duration
    ensures Run(st, [ChordCommand(chord, quality, duration)]) == State(st.events, st.measure + 1, st.bpm)
  {
    var line := ChordCommand(chord, quality, duration);
    NoDigitNoRoot(chord);
    StepChordLine(st, chord, quality, duration);
    RunSnoc(st, [], line);
    EmptyPrefix([line]);
    assert st.events + [] == st.events;
  }

  /**
   * `chord constructor major 1m` is a chord line whose token is no key of the
   * table: as written it schedules a bass callback, while the table's four
   * keys alone schedule nothing for it.
   */
  lemma InheritedChordTokenSchedulesBass()
    ensures SchedulesBassAsWritten("constructor") && "constructor" !in Bassline
    ensures Interpret([ChordCommand("constructor", "major", "1m")]) == State([], 1, DefaultBpm)
  {
    SilentChordLine(Start, "constructor", "major", "1m");
  }
}
