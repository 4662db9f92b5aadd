# Karplus-Strong guitar: event timeline and scheduling

A Dafny model of the timing core of the jssynth guitar (`js/synth.js`). The
model covers:

- each string's event scheduler (`Synth.String.prototype.generate`);
- the pattern compiler (`Synth.Guitar.prototype.add_pattern` with the default
  `Synth.Pattern` gestures `all_damp` and `simple_strum`);
- song resynchronisation (`syncSong`);
- the loop-wrap logic of `Synth.Guitar.prototype.generate`;
- the read-cursor bookkeeping of `fret` and `sub_generate`.

Audio sample values are not modelled. Rendering is recorded as a trace of
segments `[start, end)`, each tagged with the event applied at its end.
Times are `real`: the default pre-beat mute sits at beat `-0.0001`, so damp
events fall at times such as `start - 4.41 - 1`.

Modules, leaves first:

- `Cursor`: `Math.ceil`, `fret`'s cursor reduction, the cursor steps of
  `sub_generate`, and the iteration count of a loop with real bounds.
- `Timeline`: events, the `add_*` constructors, and the boundary scan of
  `String.generate` with its selection rule.
- `StringVoice`: a string's state, `fret`, `init`, the cursor part of
  `sub_generate`, event effects, and `String.generate`.
- `Patterns`: gestures, `simple_strum`, `all_damp`, `Synth.Pattern`, and the
  built-in four-chord song.
- `Compile`: the events one pattern puts on one string.
- `Instrument`: the guitar, `add_pattern`, `syncSong`, `Guitar.generate` and
  the constructor.

`Synth.pitch_of_midikey` uses `Math.pow`, so it is a parameter here: any
positive frequency per key (`PitchFn`). The period is then
`44100 / pitch + 0.5 + 0.5 * num_filt`, as in the source, and
`period_i = ceil(period)`.

The delay buffer is summarised by two numbers:

- `excitation`: how many leading cells the most recent `pluck()` refilled;
- `plucks`: how many plucks there have been.

These numbers are what tells a pluck from a hammer-on. A pluck event runs
`pluck()` before `fret(key)`, so it refills the cells of the OLD loop length.
`StringVoice.Apply` states this.

Behaviour of the code that the model follows:

- The cursor invariant is `0 <= sample <= period_i`. `fret` stops reducing
  once `sample <= period`, and `period` can equal `period_i`, so the cursor
  can sit at `period_i` itself. It is below `period_i` after any non-empty
  `sub_generate`.
- An event exactly at the current segment start is eligible and produces a
  zero-length segment: the window is `[time + start, time + len)`.
- A request with `time + N == end` exactly does not wrap. Afterwards `time`
  equals `end`, and the wrap happens on the next request.
- `fret` does not check that `period_i` fits the 4096-cell buffer.

Consequences of the code as written that the lemmas show:

- The pre-beat damp of the song's first pattern lies at a negative time. The
  string clocks restart at 0 after a wrap, so the window rendered after the
  wrap does not reach it and it is still pending when the wrapping
  `generate` returns (`Instrument.WrapSkipsOpeningDamp`).
- A boundary at a fractional time makes the next segment start at a
  fractional index. `sub_generate` then steps through non-integer buffer
  indices. The model counts those steps (`Cursor.Steps`) but not the writes.

## Model

| member | source | states |
|---|---|---|
| Cursor.Ceil | js/synth.js:100 | `period_i` is the least integer not below `period` |
| Cursor.CursorStep | js/synth.js:114-116 | one step of a cursor in `[0, period_i]` lands in `[0, period_i)` when `period_i >= 2` |
| Cursor.ReduceCursor | js/synth.js:97-99 | after `fret`'s loop the cursor is at most `period`; it is unchanged when already within the period; otherwise it is positive and differs from the old cursor by a whole number of periods |
| Cursor.Advance | js/synth.js:111-126 | a cursor in `[0, period_i]` stays there; after at least one step it is below `period_i` |
| Cursor.AdvanceModulo | js/synth.js:112-116 | after `n` steps the cursor is `n` cells further on, less one `period_i` for every wrap (filter pass) |
| Cursor.AdvanceAdd | js/synth.js:112-116 | advancing by `a` and then by `b` equals advancing by `a + b` |
| Cursor.Steps | js/synth.js:112 | the `for (i = start; i < end; i++)` loop with real bounds runs exactly the least `n` with `start + n >= end` times |
| Cursor.StepsWhole | js/synth.js:112 | a whole-sample segment takes as many steps as it is long |
| Timeline.Push | js/synth.js:168-182 | every `add_*` keeps the list as a prefix and appends one pending event |
| Timeline.AddPluck | js/synth.js:168-170 | appends a pending pluck with its time and key |
| Timeline.AddDamp | js/synth.js:172-174 | appends a pending damp at its time |
| Timeline.AddUndamp | js/synth.js:176-178 | appends a pending undamp at its time |
| Timeline.AddHammer | js/synth.js:180-182 | appends a pending hammer-on with its time and key |
| Timeline.ScanFrom | js/synth.js:137-145 | from any intermediate point, the scan's candidate is the earliest due event: pending, with time in `[time + start, time + len)`, ties going to the first listed; with no candidate, the segment end stays at `len` and no event is due |
| Timeline.NextBoundary | js/synth.js:135-145 | the whole scan picks the earliest due event (first listed on ties) and sets the segment end to its time; if nothing is due, the end is `len`; a chosen event is pending and its end lies in `[start, len)` |
| Timeline.PendingMarkDone | js/synth.js:161 | marking a pending event done lowers the pending count by one, which makes the loop terminate |
| StringVoice.Period | js/synth.js:92-96 | the loop length exceeds one sample for every key |
| StringVoice.Fret | js/synth.js:90-104 | sets the key and period, with `period_i = ceil(period)`; the cursor becomes the old cursor reduced into the new period, so `sample <= period <= period_i`; keeps the cursor when it is already within the period; keeps the cursor invariant; changes nothing else |
| StringVoice.FretIdempotent | js/synth.js:90-104 | fretting the same key twice leaves the string as fretting it once |
| StringVoice.Init | js/synth.js:72-80 | a new string has no events, clock and cursor at 0, is undamped, has not been plucked, and is fretted at key 60: `period` is key 60's loop length and `period_i` its ceiling |
| StringVoice.InitFretted | js/synth.js:72-80 | fretting a new string at key 60 again leaves it unchanged, so `init` is exactly `fret(60)` on a cleared string |
| StringVoice.Excite | js/synth.js:82-88 | `pluck()` refills exactly the first `period_i` cells and changes nothing else in the model |
| StringVoice.SubGenerate | js/synth.js:106-127 | only the cursor moves, by the loop's step count; the cursor invariant holds afterwards; after a non-empty segment the cursor is below `period_i` |
| StringVoice.Apply | js/synth.js:147-162 | the applied event alone becomes done. A pluck refills the old loop length, then frets. A hammer frets without re-exciting. After either, `period` is the new key's loop length, `period_i` its ceiling and the cursor the old one reduced into the new period. Damp and undamp set the flag. Nothing else changes |
| StringVoice.Run | js/synth.js:134-164 | the loop keeps the string's clock and the list length; of the events it changes only `done` flags and never clears one; it keeps the cursor invariant |
| StringVoice.RunCovers | js/synth.js:134-164 | the segments of the loop tile `[start, len)` contiguously |
| StringVoice.AppliesCons | js/synth.js:139-163 | one iteration that applies the earliest due event extends the event properties of the remaining trace to the whole trace |
| StringVoice.RunApplies | js/synth.js:139-163 | every segment but the last ends at an event. That event was due and lies exactly at the segment end. No event is applied twice. A zero-length segment applies an event listed after the previous one |
| StringVoice.RunAppliesAll | js/synth.js:134-163 | conversely, every event pending and due in `[time + start, time + len)` is the one applied at some segment end |
| StringVoice.RunMarks | js/synth.js:139-163 | the loop marks done exactly the pending events whose time lies in `[time + start, time + len)` |
| StringVoice.ApplySettles | js/synth.js:147-161 | applying one event at a boundary has exactly that action's effect on the damper, the tuning and the pluck count |
| StringVoice.SettledCons | js/synth.js:139-163 | the effects of one applied event followed by those of later ones compose: the last damp or undamp, and the last pluck or hammer-on, win |
| StringVoice.RunSettles | js/synth.js:134-164 | after the loop the string's damper is set by the last damp or undamp it applied, its key, `period` and `period_i` by the last pluck or hammer-on, and its pluck count grows by the number of plucks applied; whatever no applied event touches keeps its value |
| StringVoice.Generate | js/synth.js:129-166 | the segments tile `[0, len)`, and the clock advances by exactly `len`. The events keep everything but their `done` flags, and exactly the pending events due in `[time, time + len)` become done. The cursor invariant is kept |
| StringVoice.GenerateApplies | js/synth.js:134-163 | every segment end but the last applies an event that was due in `[time, time + len)` and lies exactly there, and every event due there is applied at some segment end; no event is applied twice; events at the same time are applied in list order; events are applied in non-decreasing time order |
| StringVoice.GenerateQuiet | js/synth.js:129-166 | with no event due, a request is one segment and only the cursor and clock move |
| StringVoice.GenerateSettles | js/synth.js:129-166 | after a request the string carries the effects of the events applied at its boundaries, in trace order: damper, tuning and pluck count as in `RunSettles` |
| StringVoice.GenerateQuietWhole | js/synth.js:129-166 | with no event due, a request of `n` whole samples moves the cursor exactly `n` cells and the clock by `n` |
| StringVoice.GenerateSplit | js/synth.js:129-166 | with no event due, rendering `a` then `b` samples leaves the string as rendering `a + b` at once |
| StringVoice.EndsMonotone | js/synth.js:163 | segment ends never decrease along the trace |
| Patterns.SimpleStrum | js/synth.js:288-297 | gesture `j` selects string `j + 1` on the beat, `j * offset` strum steps late |
| Patterns.AllDamp | js/synth.js:299-307 | gesture `j` damps string `j + 1` at `beat - 0.0001`, step 0 |
| Patterns.DefaultStrum | js/synth.js:323-325 | the default gesture list has twelve gestures: the first six are `all_damp(0)` and the last six `simple_strum(0, 1)` |
| Patterns.DefaultStrumGestures | js/synth.js:288-307 | gesture `j` of the default list damps string `j + 1` at beat `-0.0001`, step 0, and gesture `6 + j` plucks string `j + 1` on beat 0 at step `j` |
| Patterns.NewPattern | js/synth.js:320-327 | a pattern keeps its keys, lasts two beats and uses the default gestures |
| Patterns.DefaultSong | js/synth.js:209-213 | the built-in song has four two-beat patterns with six keys each, all with the default gesture list |
| Compile.CompileGesture | js/synth.js:266-282 | a gesture naming neither `i + 1` nor `-(i + 1)` schedules nothing on string `i`; a gesture only appends |
| Compile.GestureTiming | js/synth.js:267-269 | a gesture's time moves with the pattern start, and on one beat a later step never sounds earlier (for a non-negative `strum_delay`) |
| Compile.GestureAppends | js/synth.js:271-282 | what a gesture schedules does not depend on the events already there |
| Compile.StrumAppends | js/synth.js:265-283 | compiling a gesture list only appends to a string's events |
| Compile.StrumLength | js/synth.js:265-283 | a gesture list adds at most two events per gesture to a string |
| Compile.StrumSplit | js/synth.js:265-283 | compiling `a + b` is compiling `a` then `b` |
| Compile.StrumUntargeted | js/synth.js:271-282 | gestures for other strings schedule nothing |
| Compile.StrumSingle | js/synth.js:265-283 | with one gesture for the string, the list schedules exactly that gesture's events |
| Compile.PlayGesture | js/synth.js:271-279 | a gesture naming string `i` appends nothing for key 0. For a positive key it appends an undamp one sample early and a pluck on time. For a negative key it appends a damp one sample early and a pluck of `-key` |
| Compile.CompileAllDamp | js/synth.js:280-282 | `all_damp(beat)` gives string `i` one damp, one sample before `start + (beat - 0.0001) * beat_delay` |
| Compile.CompileSimpleStrum | js/synth.js:271-279 | `simple_strum(beat, offset)` gives string `i` the play events of its key at `start + beat * beat_delay + i * offset * strum_delay` |
| Compile.CompileMuteStrum | js/synth.js:263-283 | a pattern that mutes all strings and then strums them appends exactly the damp, then the string's play events |
| Compile.CompileDefaultPattern | js/synth.js:263-283 | `new Pattern(keys)` at any start gives string `i` a damp one sample before `start - 0.0001 * beat_delay`, then its play events at `start + i * strum_delay` |
| Instrument.AddPattern | js/synth.js:259-286 | each string gets exactly the pattern's events appended, and `end` grows by `duration * beat_delay`. Nothing else changes |
| Instrument.SongEventsAppend | js/synth.js:224-226 | one pattern's events followed by the rest's are the whole list's events |
| Instrument.AddPatterns | js/synth.js:224-226 | compiling a list of patterns appends each string's reference timeline and grows `end` by the song length |
| Instrument.SyncSong | js/synth.js:217-227 | every string's list becomes exactly the song's reference timeline from time 0. `end` becomes the song length. Nothing else changes |
| Instrument.SyncSongIdempotent | js/synth.js:217-227 | resynchronising twice equals resynchronising once |
| Instrument.AppendedSongCons | js/synth.js:224-226 | adding the first pattern and then the rest of the list appends the whole list's reference timeline |
| Instrument.RenderAll | js/synth.js:252-254 | every string renders the same request |
| Instrument.RenderedCovers | js/synth.js:252-254 | the traces of every string rendering the same request tile that request |
| Instrument.GenerateWrapping | js/synth.js:233-250 | a request past the end: part one is every string's render of its remaining `end - time` samples; then each string keeps its state but gets clock 0 and the fresh timeline, and part two is its render of `left` samples; clocks end at `left`; nothing else changes |
| Instrument.GenerateWithin | js/synth.js:251-256 | a request within the song: one part of `N` samples in which every string is exactly its own render of `N` samples; every clock advances by `N`, exactly the events due in each window become done, and nothing else changes |
| Instrument.Generate | js/synth.js:230-257 | on a wrap the buffer splits at `end - time`, the two parts sum to `N`; part one holds each string's render of the old timeline's rest, part two its render of `left` samples from the restarted string, whose result is the new string; clocks end at `left` and exactly the fresh events in `[0, left)` are done. Otherwise every string and trace is that string's render of `N` samples, all clocks advance by `N`, and exactly the events due in each window become done. Song and delays never change; every trace tiles its part |
| Instrument.Restart | js/synth.js:239-245 | after the clock reset and resync each string is the string it was, with clock 0 and the song's reference timeline as its list; the guitar clock is 0, `end` is the song length, and nothing else changes |
| Instrument.ResetClocks | js/synth.js:241-243 | every string's clock becomes 0 and nothing else about it changes |
| Instrument.GenerateKeepsClock | js/synth.js:230-256 | with `N <= end`, the invariant holds after the call: `0 <= time <= end`, the guitar is synced, and every string's clock equals the guitar's |
| Instrument.NewGuitar | js/synth.js:197-215 | every string is a string fresh from `init` (key 60, its period, cursor 0, undamped, not plucked) holding the four-chord song compiled from time 0; `beat_delay` and `strum_delay` are the defaults, `end == 352800`, and the clock invariant holds |
| Instrument.NewGuitarSynced | js/synth.js:197-215 | a new guitar is already synchronised: `syncSong` on it changes nothing |
| Instrument.DefaultSongLength | js/synth.js:202-213 | the built-in song lasts four two-beat patterns: 352800 samples |
| Instrument.OpeningDamp | js/synth.js:299-307 | a song that opens with a default pattern starts every string's timeline with the pre-beat damp, at a negative time |
| Instrument.WrapSkipsOpeningDamp | js/synth.js:238-249 | after a wrap, that opening damp is still pending on every string |

## Left out

- StringVoice.Generate: its own contract does not state the string's damper, tuning and pluck count after a request with due events; `StringVoice.GenerateSettles` states them, because carrying them in the contract made every guitar-level proof much more expensive.
- The excitation after a request that plucks is not stated: it is the loop length in force just before the last pluck, which depends on the tuning events before it. Without a pluck it is stated unchanged.
- The cursor after a request with due events is stated only by its invariant `0 <= sample <= period_i` (and `< period_i` after a non-empty segment), not by its exact position.

- Sample values: `pluck_filt` uses `Math.random`, while `iir_filt`, `damp_filt`, `frac_delay` and `frac_delay1` compute floating-point contents. The model records only where each segment starts and ends, how the cursor moves, and how many cells a pluck refills.
- Writes at non-integer buffer indices after a fractional boundary are dropped by typed arrays. This concerns sample values and is not modelled.
- `pitch_of_midikey` and the `gain`/`t60` formula rely on `Math.pow`. The pitch is a parameter; gain and `t60` are not modelled.
- `brightness` is reset to 0 by every `fret` and is read only by the filters, so it is not modelled. `num_filt_pluck` is read only by `pluck()`'s filter loop, so it is not modelled either.
- The 4096-cell buffer and its capacity are not modelled, and neither is `fret`'s lack of a range check.
- Float rounding: times, `end - time` and `time + end` are exact reals. In the source, `this.time + (evt.time - this.time)` may differ from `evt.time` in the last bit.
- `picking` is only referenced from a commented-out line and is not modelled.
- `Synth.Song.prototype.add_pattern` only appends to an array; the built-in song is written as a literal list of four patterns.
- `Synth.startPlayback` and `Synth.Player` are audio-device I/O and a play/pause flag, and js/synth_ui.js is DOM glue. None of these is part of this model.
- The event list's unbounded growth is a resource matter. Lists are cleared on every resync.
- The sample offset of the second part of a wrapped buffer is stated in `Instrument.Generate`'s frame. The shared output buffer itself is not modelled.
