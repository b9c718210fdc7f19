# Sound-Syntax interpreter core in Dafny

Sound-Syntax is a small browser music language. The user edits a program of
lines such as `setTempo(120)` and `chord Am minor 1m`. `parseAndPlay` in
`app.js` reads it line by line and keeps a tempo and a measure counter. For
each chord line it schedules on Tone.js's transport a chord callback, when
`generateChordNotes` returns notes (the quality is one of the four table
qualities and the token contains `[A-G]#?` followed by a digit), or a
bass-note callback, when the token is one of four bass-table keys. Each callback's delay is
computed from that line's measure. The transport is stopped after the
computed length of all measures.

This project models the part of `app.js` that turns program text into that
schedule:

- `wrappers.dfy`: `Option`.
- `text.dfy`: the JavaScript string built-ins the interpreter uses.
  - `startsWith`;
  - `split` on one character, with `Join` as its inverse;
  - the expression `/\d+/`;
  - `parseInt` on a digit run;
  - integer-to-text conversion as template literals do it.
- `pitch.dfy`: `transposeNoteBySemitones`.
  - The twelve-name table and `indexOf`.
  - The single wrap by twelve that moves the octave by one.
  - `null` (as `None`) for a name outside the table.
- `chord.dfy`: `generateChordNotes`.
  - The four-quality offset table.
  - A hand-written scanner for the unanchored expression `/([A-G]#?)(\d)/`.
  - The mapping of the offsets through the transposer.
- `schedule.dfy`: the `commands.forEach` loop of `parseAndPlay` and the stop time.
  - `ParseAndPlay` is a method with a `while` loop over the lines. It updates the event list, `currentMeasure` and the tempo.
  - Its loop body is the method `PlayLine`.
  - `ParseAndPlay` is proved against the fold `Interpret`/`Run` of the pure step function `Step`. The lemmas about the interpreter are stated over that fold.

An entry of the schedule (`Event`) records what the code hands to the transport:

- the measure index (`currentMeasure`) and the tempo in force when its line was read;
- the chord's notes or the bass note;
- the duration token.

The delay the code computes from them is `Seconds(measure, bpm)`. That is
`240 × measure / bpm` as an exact real number, which stands for
`Tone.Time('1m').toSeconds() * currentMeasure` in 4/4. It is `None` at a
tempo of 0, where JavaScript produces a non-finite number.

### Where the code and its design description differ

The design description of Sound-Syntax (the language-independent account of
its interpreter and scheduler) says some things `app.js` does not do. The
model follows `app.js` in each case:

- **Delays at mixed tempos.** The design promises that event offsets never decrease in emission order.
  - In the code, each delay number is computed from the tempo in force when its line is read (app.js:86).
  - So after a `setTempo` that raises the tempo, a later measure can get a smaller delay number than an earlier one. This happens exactly when measure2 / bpm2 < measure1 / bpm1, which `Schedule.SecondsCompare` proves. Whether it happens depends on the measures. A raise from 60 to 240 bpm does it between measures 1 and 2, as `Schedule.TempoRaiseShortensLaterDelay` shows. A raise from 120 to 121 bpm does it only between measures after 120, such as 121 and 122; `Schedule.SmallRaiseLateMeasures` works out both sides of that.
  - `Schedule.ConstantTempoOrdered` proves that the delay numbers never decrease when no `setTempo` line occurs.
  - When Tone then fires the callbacks is not modelled (see "## Left out").
- **Chord and bass together.** The design's example pairs a chord on `A2 minor` with a bass note A2 at the same offset.
  - In the code the bass note is looked up by the chord token itself (app.js:97), and none of the four keys carries an octave digit.
  - So no line ever schedules both a chord and a bass note. `Schedule.OneCallbackPerLine` proves this.
- **`rest` lines.** The design has them advance the cursor. In the code they only log, so the model leaves the state unchanged.
- **`play` lines and the sequential cursor.** The design describes note literals (`play`) and a duration-based sequential cursor. `app.js` has neither, and neither is modelled.

## Model

| member | source | states |
|---|---|---|
| Text.StartsWith | app.js:76-106 | defines `startsWith` as the prefix test |
| Text.Value | app.js:79 | defines `parseInt` of a digit run as its decimal value |
| Text.Split | app.js:62 | `split` on one character: never empty, no piece contains the separator, and joining the pieces with it gives back the input |
| Text.SplitJoin | app.js:62 | splitting the join of separator-free pieces gives back the same pieces |
| Text.SplitAround | app.js:83 | splitting `a + c + b` gives the pieces of `a` followed by the pieces of `b` |
| Text.DecimalText | app.js:193 | the decimal text of a natural number is a non-empty digit string without a leading zero whose `parseInt` value is the number |
| Text.IntText | app.js:193 | the text of an integer: digits of its value, with a leading `-` for a negative one, and no leading zero except for 0 itself |
| Text.MatchDigits | app.js:77 | `match(/\d+/)`: none exactly when the line has no digit; otherwise a non-empty digit string that is the leftmost, longest run of digits |
| Text.FirstDigitRunUnique | app.js:77 | the leftmost, longest digit run is unique |
| Text.MatchDigitsOfNumber | app.js:77-79 | in digit-free text, then a number, then text that does not start with a digit, the expression finds exactly that number |
| Pitch.NoteText | app.js:193 | defines the note string: the name followed by the octave's decimal text |
| Pitch.Shift | app.js:182-193 | the arithmetic after the lookup: the octave moves by at most one, and stays the same exactly when the index sum is within the table |
| Pitch.IndexOf | app.js:179 | `indexOf`: -1 exactly when the name is absent; otherwise the first position holding it |
| Pitch.NameAt | app.js:193 | `noteOrder[i]` in a template literal: a table name exactly when i is a table position, otherwise "undefined" |
| Pitch.Transpose | app.js:177-194 | `null` exactly when the name is not one of the twelve; otherwise the octave moves by at most one |
| Pitch.IndexOfNoteOrder | app.js:178-179 | the twelve names are distinct, so looking up the name at position k gives k |
| Pitch.ShiftInRange | app.js:182-193 | for an index sum from -12 to 23: the name at the sum modulo 12, and the octave moved by the sum divided by 12 (floored) |
| Pitch.TransposeInRange | app.js:182-193 | the same for a name in the table: the result's index is (index + offset) mod 12 and its octave is octave + floor((index + offset) / 12) |
| Pitch.ShiftSemitone | app.js:182-193 | within one wrap, the result's absolute height is the input's plus the offset |
| Pitch.TransposeSemitone | app.js:182-193 | within one wrap, transposing moves the absolute height (12 × octave + index) by exactly the offset |
| Pitch.TransposeWrapsOnce | app.js:185-191 | beyond one wrap the code wraps only once: the name is "undefined" and the octave moves by one |
| Pitch.ShiftRoundTrip | app.js:182-193 | within one wrap, shifting back by the opposite offset from the new position restores the name and octave |
| Pitch.TransposeRoundTrip | app.js:177-194 | within one wrap, transposing by s and then by -s gives back the original note |
| Chord.SemitoneTable | app.js:151-156 | every quality has three offsets: 0, then strictly rising, at most 8 |
| Chord.RootAt | app.js:164 | the expression at one position: a match captures the text there, a letter A to G optionally followed by `#`, and the digit right after it gives the octave; no match means no such shape starts there |
| Chord.FirstRootIndex | app.js:164 | the leftmost position from which the root expression matches, or none when it matches nowhere |
| Chord.MatchRoot | app.js:164 | the unanchored match: none exactly when no position matches; otherwise the match at the leftmost matching position |
| Chord.GenerateChordNotes | app.js:150-174 | `null` exactly for an unknown quality or a token without `[A-G]#?` followed by a digit; otherwise three entries, one per offset |
| Chord.ChordIntervals | app.js:170-173 | for a root in the table: the first entry is the root at the root octave, and entry k lies the quality's k-th offset above it |
| Chord.ChordAscends | app.js:152-155 | the three notes of such a chord rise strictly |
| Chord.ChordOnUnknownPitch | app.js:164-172 | a root the expression accepts but the table lacks gives a chord of three `null` entries |
| Chord.ChordOnESharp | app.js:164-180 | `E#4` matches as E# octave 4, and its chord is three `null` entries |
| Chord.MatchAtStart | app.js:164 | a match at position 0 is the one the expression returns |
| Chord.NameShape | app.js:178 | every table name is a letter A to G, optionally followed by `#` |
| Chord.MatchNoteText | app.js:193 | the text the transposer builds for a table note with a one-digit octave matches back as that name and octave |
| Chord.AugmentedOnB4 | app.js:150-174 | `B4` augmented gives B4, D#5, G5 |
| Chord.NoChordOnAm | app.js:164-168 | `Am` has no octave digit, so its chord is `null` for every quality |
| Chord.MatchInsideLongerToken | app.js:164 | in `A10` the expression finds `A1` |
| Chord.GenerateChordNotesAsWritten | app.js:158-162 | with the lookup as written: the same as `GenerateChordNotes` for ordinary qualities; it throws exactly for an inherited `Object.prototype` name on a matching root, and otherwise gives the same notes or `null` as `GenerateChordNotes`, so an inherited name on an unmatched token gives `null` |
| Chord.InheritedQualityThrows | app.js:158-172 | `C4 constructor` throws as written, while the own-keys table returns `null` |
| Schedule.HasChordTokens | app.js:83-84 | defines the `chord && type && duration` test after destructuring the split line: at least four pieces, the second to fourth non-empty |
| Schedule.IsChordLine | app.js:82-84 | defines the lines the `chord` branch acts on: prefix `chord` and the three tokens |
| Schedule.NoDigitNoRoot | app.js:164 | a token without a digit never matches the root expression |
| Schedule.LineEvents | app.js:85-102 | the callbacks of one chord line: at most two, all at the line's measure and tempo; a chord exactly when notes were generated, first; a bass note exactly when the token is Am, Em, F or C, last, from the bass table and lasting `1n` |
| Schedule.OneCallbackPerLine | app.js:85-102 | a chord line schedules at most one callback: a bass-table key never yields a chord |
| Schedule.Step | app.js:76-108 | defines one line of the loop: `setTempo` sets the tempo to the first digit run's value if there is one; a `chord` line with three non-empty tokens appends its callbacks and advances the measure; every other line changes nothing |
| Schedule.Run | app.js:75 | defines the `forEach`: the steps of the lines applied in order from a given state |
| Schedule.Interpret | app.js:63-75 | defines a whole run: the steps applied from no callbacks, measure 0 and 120 bpm |
| Schedule.SchedulesBassAsWritten | app.js:97 | defines the as-written `bassline[chord]` test: true for a table key or an inherited `Object.prototype` name |
| Schedule.PlayLine | app.js:76-108 | one pass of the loop body leaves exactly the state `Step` describes |
| Schedule.ParseAndPlay | app.js:62-119 | the loop ends in the state that interpreting the lines gives from 120 bpm and measure 0; the measure is the number of chord lines; the schedule is ordered as `WellScheduled` says; the stop time is `Seconds` of the final measure and tempo |
| Schedule.Seconds | app.js:86 | defined exactly when the tempo is positive, and then the delay times the tempo is 240 × the measure |
| Schedule.RunPrefix | app.js:75 | reading one more line is one more step |
| Schedule.RunAppend | app.js:75 | reading lines in two parts is the same as reading them in one |
| Schedule.MeasureIsChordLineCount | app.js:73-105 | the measure counter equals the number of chord lines read, whether or not their chords were generated |
| Schedule.ChordLineSchedules | app.js:82-105 | the k-th chord line schedules that line's callbacks at measure k and the current tempo, and moves the counter to k + 1 |
| Schedule.OtherLineKeepsSchedule | app.js:75-108 | any other line leaves the callbacks and the counter unchanged, and anything but `setTempo` changes nothing |
| Schedule.TempoLine | app.js:76-81 | a `setTempo` line schedules nothing; it sets the tempo to the value of the first digit run, and keeps it when the line has no digit |
| Schedule.TempoWithoutTempoLines | app.js:63 | every run starts at 120 bpm, and without `setTempo` lines every callback is at 120 bpm |
| Schedule.AppendWellScheduled | app.js:86-104 | appending one chord line's callbacks at the current measure keeps the schedule ordered |
| Schedule.StepWellScheduled | app.js:75-109 | every line keeps the schedule ordered |
| Schedule.InterpretWellScheduled | app.js:75-109 | every run's schedule is ordered: measures rise and stay below the counter, each measure holds at most a chord then a bass note, chords have three entries, and bass notes come from the table and last `1n` |
| Schedule.ExtraTokensIgnored | app.js:83-84 | tokens after the fourth do not change the line's effect |
| Schedule.SecondsLinearInTempo | app.js:86 | doubling the tempo halves the delay |
| Schedule.SecondsCompare | app.js:86 | for two positive tempos, the second delay is smaller exactly when measure2 × bpm1 < measure1 × bpm2 |
| Schedule.SmallRaiseLateMeasures | app.js:79-86 | after a raise from 120 to 121 bpm, measure 122 gets a smaller delay than measure 121, while measure 2 still gets a larger delay than measure 1 |
| Schedule.SecondsMonotone | app.js:86 | at one tempo a later measure never gets a smaller delay, and a strictly later one gets a strictly larger delay |
| Schedule.NothingWithoutChords | app.js:73-105 | with no chord lines nothing is scheduled and the counter stays 0 |
| Schedule.StopAtZeroWithoutChords | app.js:119 | with no chord lines and a positive tempo the transport is stopped at 0 seconds |
| Schedule.ConstantTempoOrdered | app.js:86-119 | without `setTempo` lines the delay numbers never decrease in scheduling order, and all are smaller than the stop delay |
| Schedule.ChordLineTokens | app.js:82-84 | `chord X Q D` with three non-empty space-free tokens is a chord line that splits into exactly those tokens |
| Schedule.StepChordLine | app.js:82-105 | such a line appends its callbacks at the current measure and tempo and advances the counter by one |
| Schedule.TempoLineWithNumber | app.js:76-81 | `setTempo` with digit-free text around a number sets exactly that tempo and changes nothing else |
| Schedule.EmptyLineStep | app.js:75-108 | an empty line changes nothing |
| Schedule.BassOnlyLine | app.js:96-104 | a chord line whose token is a bass-table key (no octave digit) schedules only its bass note |
| Schedule.FourBassLines | app.js:82-105 | four such lines schedule their four bass notes on consecutive measures |
| Schedule.TempoAndFourBassLines | app.js:63-105 | a tempo line, four such lines and an empty line give four bass notes at the new tempo on measures 0 to 3 |
| Schedule.DefaultLineCommands | app.js:8 | the default program's lines are `setTempo(120)`, four chord commands with `1m` durations, and an empty line |
| Schedule.DefaultProgramText | app.js:8 | the default program's text, line by line |
| Schedule.DefaultProgramLines | app.js:62 | splitting the default program on newlines gives back its lines |
| Schedule.DefaultRun | app.js:63-105 | reading the default lines gives A2, E2, F2 and C2 on measures 0 to 3 at 120 bpm |
| Schedule.DefaultProgramPlaysBassOnly | app.js:62-119 | the default program schedules bass notes only, no chords, and stops after 4 measures (8 seconds) |
| Schedule.TempoRaiseShortensLaterDelay | app.js:79-86 | after a rise from 60 to 240 bpm, the delay number computed for measure 2 (2 s) is smaller than the one computed for measure 1 (4 s) |
| Schedule.SilentChordLine | app.js:96-104 | a chord line whose digit-free token is not a table key schedules nothing and only advances the counter |
| Schedule.InheritedChordTokenSchedulesBass | app.js:97-101 | `chord constructor major 1m` gets a bass callback as written, while the own-keys table schedules nothing for it |

## Left out

- Monaco editor loading and the run button (app.js:1-28): user interface and CDN loader.
- Synthesizer construction and the sounding of notes (app.js:31-32, the callback bodies at 90-101): a foreign audio library. The model records what is scheduled, not the `triggerAttackRelease` calls.
- Where a chord entry holds `null`, the model keeps `None`. The synthesizer's reaction to it is left out.
- Media stream and recorder setup, `recorder.start`/`stop`, and transport start and stop (app.js:45-60, 111-118): I/O and real-time callbacks.
- `exportWav` and the download button (app.js:122-147): Blob, URL and DOM plumbing.
- Schedule.ParseAndPlay: the interpreter uses the corrected own-keys lookups of both tables, so it departs from `app.js` on tokens that name `Object.prototype` members. As written, `chord C4 constructor 1m` throws at app.js:172. That throw leaves the `forEach`, so no later line is read and app.js:112-119 is never reached, whereas the model reads on and advances the measure. As written, `chord constructor major 1m` also gets a bass callback, which the model does not schedule. The as-written behaviour is recorded under "## Findings" only.
- When Tone fires the callbacks: the transport converts each `+${delay}` into ticks at the tempo in force when `schedule` is called. So the model makes no claim about playback order or playback time, only about the delay numbers the code computes.
- `Tone.Time('1m').toSeconds()` in floating point: it becomes exact real arithmetic, `240 / bpm` seconds per measure, a 4/4 measure at Tone's default time signature.
- Tone's `+${delay}` strings and the 0.1-second transport start offset: delays are kept as numbers relative to the transport start.
- Callbacks left over from earlier runs: `app.js` never calls `Tone.Transport.cancel()`, so the callbacks one click schedules stay on the transport and play again after the next click. The model starts every run from no callbacks and describes only what one run schedules.
- UTF-16 strings: JavaScript strings are sequences of UTF-16 code units, while a Dafny `string` holds Unicode scalar values, so text with a lone surrogate cannot be represented. Every pattern the code uses is ASCII, so on all representable text the behaviour is the same.
- Console diagnostics (`console.log`, `console.error`).
- The duration token: it is passed to the synthesizer untouched, so the model keeps it as an opaque string.
- `parseInt` precision: digit runs are read as unbounded naturals. JavaScript loses exactness above 2^53.
- The bass callback's use of an inherited `Object.prototype` value at playback. The as-written lemmas show only that such a callback is scheduled.

## Findings

| source | as written | input that shows it | evidently intended | confidence | as-written member | corrected member |
|---|---|---|---|---|---|---|
| app.js:158-162 | `semitoneMap[type]` also finds names inherited from `Object.prototype`. They pass `!semitones`, and `semitones.map` then throws a TypeError | `chord C4 constructor 1m` | an unsupported quality gives `null` ("Unsupported chord type") | not executed | Chord.InheritedQualityThrows | Chord.GenerateChordNotes |
| app.js:97-101 | `bassline[chord]` is truthy for inherited names such as `constructor`, so a bass callback is scheduled that hands a function to the synthesizer | `chord constructor major 1m` | a bass note only for the four table keys | not executed | Schedule.InheritedChordTokenSchedulesBass | Schedule.LineEvents |
