/**
  One guitar string (`Synth.String`): the pitch state set by `fret`, the read
  cursor moved by `sub_generate`, and the event scheduler `generate`.

  The delay-line samples are not modelled. What the model keeps of the buffer
  is how many leading cells the most recent pluck refilled (`excitation`) and
  how many plucks there were (`plucks`). Rendering is recorded as a trace of
  segments instead of sample values.
 */
module StringVoice {
  import opened Wrappers
  import opened Cursor
  import opened Timeline

  const SampleRate: real := 44100.0
  /** Damping-filter passes per loop cycle (`num_filt`). */
  const NumFilt: int := 1
  /** Key every string is fretted to by `init`. */
  const InitialKey: int := 60

  /** `Synth.pitch_of_midikey`, left abstract: any positive frequency per key. */
  type PitchFn = f: int -> real | forall k :: f(k) > 0.0 witness (k: int) => 1.0

  /** The loop length for a key: samples per cycle plus one sample of group
      delay (half from the damping filter, half from the interpolation). */
  function Period(pitch: PitchFn, key: int): (p: real)
    ensures p > 1.0
  {
    assert SampleRate / pitch(key) > 0.0;
    SampleRate / pitch(key) + 0.5 + 0.5 * NumFilt as real
  }

  datatype Voice = Voice(
    events: seq<Event>,
    time: real,        // absolute sample position of the string's clock
    sample: real,      // read cursor in the delay loop
    key: int,
    period: real,
    periodI: int,      // cells of the delay loop
    damp: bool,
    excitation: int,   // cells refilled by the most recent pluck
    plucks: nat)

  /** The cursor invariant: the loop is `ceil(period)` cells long, and the
      cursor lies in `[0, periodI]`. The upper end is reachable: `fret` stops
      reducing once `sample <= period`, and `period` can equal `periodI`. */
  predicate VoiceOk(v: Voice)
  {
    && 1.0 < v.period
    && v.periodI == Ceil(v.period)
    && 0.0 <= v.sample <= v.periodI as real
  }

  /** `fret(key)`: retunes the string to `key` and folds the cursor into the
      new period without resetting its phase. */
  function Fret(v: Voice, key: int, pitch: PitchFn): (r: Voice)
    ensures r.key == key && r.period == Period(pitch, key) && r.periodI == Ceil(r.period)
    ensures r.sample == ReduceCursor(v.sample, r.period)
    ensures r.sample <= r.period <= r.periodI as real
    ensures v.sample <= r.period ==> r.sample == v.sample
    ensures 0.0 <= v.sample ==> VoiceOk(r)
    ensures r == v.(key := key, period := r.period, periodI := r.periodI, sample := r.sample)
  {
    var p := Period(pitch, key);
    v.(key := key, period := p, sample := ReduceCursor(v.sample, p), periodI := Ceil(p))
  }

  /** Re-fretting to the same key changes nothing at all: the first call has
      already brought the cursor within the period. */
  lemma FretIdempotent(v: Voice, key: int, pitch: PitchFn)
    ensures Fret(Fret(v, key, pitch), key, pitch) == Fret(v, key, pitch)
  {
  }

  /** `init()` on a fresh string: clock and cursor at zero, undamped, no
      events, fretted at middle C. */
  function Init(pitch: PitchFn): (r: Voice)
    ensures VoiceOk(r)
    ensures r.events == [] && r.time == 0.0 && r.sample == 0.0
    ensures r.key == InitialKey && r.period == Period(pitch, InitialKey) && r.periodI == Ceil(r.period)
    ensures !r.damp && r.plucks == 0
  {
    Fret(Voice([], 0.0, 0.0, 0, 0.0, 0, false, 0, 0), InitialKey, pitch)
  }

  /** A new string is already fretted at its initial key: fretting it there
      again changes nothing. */
  lemma InitFretted(pitch: PitchFn)
    ensures Fret(Init(pitch), InitialKey, pitch) == Init(pitch)
  {
    FretIdempotent(Voice([], 0.0, 0.0, 0, 0.0, 0, false, 0, 0), InitialKey, pitch);
  }

  /** `pluck()`: refills the first `periodI` cells of the delay loop. */
  function Excite(v: Voice): (r: Voice)
    ensures r.excitation == v.periodI && r.plucks == v.plucks + 1
    ensures r == v.(excitation := r.excitation, plucks := r.plucks)
  {
    v.(excitation := v.periodI, plucks := v.plucks + 1)
  }

  /** `sub_generate(buf, start, end)`, cursor only: one step per loop index. */
  function SubGenerate(v: Voice, start: real, end: real): (r: Voice)
    ensures r == v.(sample := Advance(v.sample, v.periodI, Steps(start, end)))
    ensures VoiceOk(v) ==> VoiceOk(r)
    ensures VoiceOk(v) && start < end ==> r.sample < r.periodI as real
  {
    v.(sample := Advance(v.sample, v.periodI, Steps(start, end)))
  }

  /** The effect of event `k` reached at a boundary, and its `done` flag:
      a pluck re-excites the loop at the current length and then frets, a
      hammer frets without re-exciting, damp and undamp set the flag. Nothing
      else in the voice changes, and no other event does. */
  function Apply(v: Voice, k: nat, pitch: PitchFn): (r: Voice)
    requires k < |v.events|
    ensures r.events == v.events[k := v.events[k].(done := true)]
    ensures r.time == v.time
    ensures VoiceOk(v) ==> VoiceOk(r)
    ensures match v.events[k].action
      case Pluck(key) =>
        r == v.(events := r.events, key := key, period := Period(pitch, key),
                periodI := Ceil(Period(pitch, key)), sample := ReduceCursor(v.sample, Period(pitch, key)),
                excitation := v.periodI, plucks := v.plucks + 1)
      case Hammer(key) =>
        r == v.(events := r.events, key := key, period := Period(pitch, key),
                periodI := Ceil(Period(pitch, key)), sample := ReduceCursor(v.sample, Period(pitch, key)))
      case Damp => r == v.(events := r.events, damp := true)
      case Undamp => r == v.(events := r.events, damp := false)
  {
    var v' := match v.events[k].action
      case Pluck(key) => Fret(Excite(v), key, pitch)
      case Damp => v.(damp := true)
      case Undamp => v.(damp := false)
      case Hammer(key) => Fret(v, key, pitch);
    v'.(events := v.events[k := v.events[k].(done := true)])
  }

  /** One rendered piece `[start, end)` of a request, relative to the
      string's clock, and the event applied at its end, if any. */
  datatype Segment = Segment(start: real, end: real, event: Option<nat>)

  datatype Rendered = Rendered(trace: seq<Segment>, voice: Voice)

  /** The segments tile `[from, to)` exactly: in order, each starting where
      the previous one ended, none of negative length; and there are none
      when the request is empty. */
  predicate Covers(trace: seq<Segment>, from: real, to: real)
  {
    && (to <= from ==> trace == [])
    && (from < to ==>
          && |trace| > 0
          && trace[0].start == from
          && trace[|trace| - 1].end == to
          && (forall i :: 0 <= i < |trace| ==> trace[i].start <= trace[i].end)
          && (forall i :: 0 <= i < |trace| - 1 ==> trace[i].end == trace[i + 1].start))
  }

  /** How the events of `evs` (at clock `now`, request `[start, len)`) are
      used by a trace: every segment but the last ends at an event, the last
      ends at no event; each such event was due in the request window and
      sits exactly at its segment's end. */
  predicate AppliesDue(evs: seq<Event>, now: real, start: real, len: real, trace: seq<Segment>)
  {
    && (forall i :: 0 <= i < |trace| ==> (trace[i].event.Some? <==> i < |trace| - 1))
    && (forall i :: 0 <= i < |trace| && trace[i].event.Some? ==>
          && trace[i].event.value < |evs|
          && Due(evs[trace[i].event.value], now + start, now + len)
          && evs[trace[i].event.value].time == now + trace[i].end)
  }

  /** No event is applied twice, and a zero-length segment applies an event
      listed after the previous one. */
  predicate AppliesOnce(trace: seq<Segment>)
  {
    && (forall i, j :: 0 <= i < j < |trace| && trace[i].event.Some? && trace[j].event.Some? ==>
          trace[i].event.value != trace[j].event.value)
    && (forall i :: 0 < i < |trace| ==>
          (trace[i - 1].event.Some? && trace[i].event.Some? && trace[i].start == trace[i].end) ==>
            trace[i - 1].event.value < trace[i].event.value)
  }

  /** How a trace uses the events: both of the above. */
  predicate Applies(evs: seq<Event>, now: real, start: real, len: real, trace: seq<Segment>)
  {
    AppliesDue(evs, now, start, len, trace) && AppliesOnce(trace)
  }

  /** Every event due in the request window is applied by some segment of
      the trace: the converse of the second clause of `AppliesDue`. */
  predicate AppliesAll(evs: seq<Event>, now: real, start: real, len: real, trace: seq<Segment>)
  {
    forall j :: 0 <= j < |evs| && Due(evs[j], now + start, now + len) ==>
      exists i :: 0 <= i < |trace| && trace[i].event == Some(j)
  }

  /** Both event lists hold the same events, up to their `done` flags. */
  predicate SameUpToDone(evs: seq<Event>, evs': seq<Event>)
  {
    && |evs'| == |evs|
    && forall i :: 0 <= i < |evs| ==> evs'[i] == evs[i].(done := evs'[i].done)
  }

  /** `evs'` is `evs` after rendering the window `[lo, hi)`: the same events,
      with exactly those that were due in the window newly done. */
  predicate MarkedWindow(evs: seq<Event>, evs': seq<Event>, lo: real, hi: real)
  {
    && SameUpToDone(evs, evs')
    && forall j :: 0 <= j < |evs| ==> (evs'[j].done <==> evs[j].done || Due(evs[j], lo, hi))
  }

  /** The `while (start < len)` loop of `String.generate` from `start`. */
  function Run(v: Voice, len: real, start: real, pitch: PitchFn): (r: Rendered)
    ensures r.voice.time == v.time
    ensures SameUpToDone(v.events, r.voice.events)
    ensures forall i :: 0 <= i < |v.events| && v.events[i].done ==> r.voice.events[i].done
    ensures VoiceOk(v) ==> VoiceOk(r.voice)
    decreases Pending(v.events), if start < len then 1 else 0
  {
    if start >= len then Rendered([], v)
    else
      var b := NextBoundary(v.events, v.time, start, len);
      var v1 := SubGenerate(v, start, b.end);
      match b.first
      case None =>
        var rest := Run(v1, len, b.end, pitch);
        Rendered([Segment(start, b.end, None)] + rest.trace, rest.voice)
      case Some(k) =>
        var v2 := Apply(v1, k, pitch);
        PendingMarkDone(v1.events, k);
        var rest := Run(v2, len, b.end, pitch);
        Rendered([Segment(start, b.end, Some(k))] + rest.trace, rest.voice)
  }

  /** The loop's segments tile the rest of the request. */
  lemma {:induction false} RunCovers(v: Voice, len: real, start: real, pitch: PitchFn)
    ensures Covers(Run(v, len, start, pitch).trace, start, len)
    decreases Pending(v.events), if start < len then 1 else 0
  {
    if start < len {
      var b := NextBoundary(v.events, v.time, start, len);
      var v1 := SubGenerate(v, start, b.end);
      match b.first
      case None =>
      case Some(k) =>
        var v2 := Apply(v1, k, pitch);
        PendingMarkDone(v1.events, k);
        RunCovers(v2, len, b.end, pitch);
    }
  }

  /** The events of the tail of a trace are due in the whole window and are
      not the event `k` the first segment applies. */
  lemma TailDue(evs: seq<Event>, now: real, start: real, end: real, len: real,
                k: nat, rest: seq<Segment>)
    requires k < |evs| && start <= end
    requires AppliesDue(evs[k := evs[k].(done := true)], now, end, len, rest)
    ensures forall i :: 0 <= i < |rest| && rest[i].event.Some? ==>
      rest[i].event.value != k && Due(evs[rest[i].event.value], now + start, now + len)
  {
    var evs2 := evs[k := evs[k].(done := true)];
    forall i | 0 <= i < |rest| && rest[i].event.Some?
      ensures rest[i].event.value != k
      ensures Due(evs[rest[i].event.value], now + start, now + len)
    {
      assert Due(evs2[rest[i].event.value], now + end, now + len);
    }
  }

  /** One loop iteration that applies event `k` extends the tail's
      `Applies` to the whole trace. */
  lemma AppliesCons(evs: seq<Event>, now: real, start: real, end: real, len: real,
                    k: nat, rest: seq<Segment>)
    requires EarliestDue(evs, now + start, now + len, k)
    requires evs[k].time == now + end && start <= end < len
    requires Applies(evs[k := evs[k].(done := true)], now, end, len, rest)
    requires Covers(rest, end, len)
    ensures Applies(evs, now, start, len, [Segment(start, end, Some(k))] + rest)
  {
    var t := [Segment(start, end, Some(k))] + rest;
    assert forall i :: 0 < i < |t| ==> t[i] == rest[i - 1];
    TailDue(evs, now, start, end, len, k, rest);
    assert AppliesDue(evs, now, start, len, t);
    forall i | 0 < i < |t| && t[i - 1].event.Some? && t[i].event.Some? && t[i].start == t[i].end
      ensures t[i - 1].event.value < t[i].event.value
    {
      if i == 1 {
        var j := rest[0].event.value;
        assert evs[j].time == evs[k].time;
        assert !(j < k);
      }
    }
  }

  /** The events the loop applies are exactly placed, due, distinct and
      ordered on ties. */
  lemma {:induction false} RunApplies(v: Voice, len: real, start: real, pitch: PitchFn)
    ensures Applies(v.events, v.time, start, len, Run(v, len, start, pitch).trace)
    decreases Pending(v.events), if start < len then 1 else 0
  {
    if start < len {
      var b := NextBoundary(v.events, v.time, start, len);
      var v1 := SubGenerate(v, start, b.end);
      match b.first
      case None =>
        assert Run(v, len, start, pitch).trace == [Segment(start, len, None)];
      case Some(k) =>
        var v2 := Apply(v1, k, pitch);
        PendingMarkDone(v1.events, k);
        RunApplies(v2, len, b.end, pitch);
        RunCovers(v2, len, b.end, pitch);
        AppliesCons(v.events, v.time, start, b.end, len, k, Run(v2, len, b.end, pitch).trace);
    }
  }

  /** The loop applies every event that is due in the rest of the request
      window: each is met by the scan at some boundary. */
  lemma {:induction false} RunAppliesAll(v: Voice, len: real, start: real, pitch: PitchFn)
    ensures AppliesAll(v.events, v.time, start, len, Run(v, len, start, pitch).trace)
    decreases Pending(v.events), if start < len then 1 else 0
  {
    if start < len {
      var now, lo, hi := v.time, v.time + start, v.time + len;
      var b := NextBoundary(v.events, now, start, len);
      var v1 := SubGenerate(v, start, b.end);
      match b.first
      case None =>
      case Some(k) =>
        var v2 := Apply(v1, k, pitch);
        PendingMarkDone(v1.events, k);
        RunAppliesAll(v2, len, b.end, pitch);
        var rest := Run(v2, len, b.end, pitch).trace;
        var t := [Segment(start, b.end, Some(k))] + rest;
        assert Run(v, len, start, pitch).trace == t;
        forall j | 0 <= j < |v.events| && Due(v.events[j], lo, hi)
          ensures exists i :: 0 <= i < |t| && t[i].event == Some(j)
        {
          if j == k {
            assert t[0].event == Some(k);
          } else {
            assert v2.events[j] == v.events[j];
            assert Due(v2.events[j], now + b.end, hi);
            var i :| 0 <= i < |rest| && rest[i].event == Some(j);
            assert t[i + 1] == rest[i];
          }
        }
    }
  }

  /** The loop marks done exactly the events that were due in the rest of
      the request window; every other flag is left as it was. */
  lemma {:induction false} RunMarks(v: Voice, len: real, start: real, pitch: PitchFn)
    ensures MarkedWindow(v.events, Run(v, len, start, pitch).voice.events, v.time + start, v.time + len)
    decreases Pending(v.events), if start < len then 1 else 0
  {
    if start < len {
      var now, lo, hi := v.time, v.time + start, v.time + len;
      var b := NextBoundary(v.events, now, start, len);
      var v1 := SubGenerate(v, start, b.end);
      match b.first
      case None =>
      case Some(k) =>
        var v2 := Apply(v1, k, pitch);
        PendingMarkDone(v1.events, k);
        RunMarks(v2, len, b.end, pitch);
        assert forall j :: 0 <= j < |v.events| && j != k ==> v2.events[j] == v.events[j];
        assert forall j :: 0 <= j < |v.events| && j != k ==>
          (Due(v.events[j], lo, hi) <==> Due(v.events[j], now + b.end, hi));
    }
  }

  /** `String.generate(buf, len)`: renders the request `[0, len)` as segments
      cut at due events, applies those events, and then moves the string's
      clock on by `len`. Exactly the events whose time falls in
      `[time, time + len)` and that were still pending become done. */
  function Generate(v: Voice, len: real, pitch: PitchFn): (r: Rendered)
    ensures r.voice.time == v.time + len
    ensures MarkedWindow(v.events, r.voice.events, v.time, v.time + len)
    ensures Covers(r.trace, 0.0, len)
    ensures VoiceOk(v) ==> VoiceOk(r.voice)
  {
    var run := Run(v, len, 0.0, pitch);
    RunCovers(v, len, 0.0, pitch);
    RunMarks(v, len, 0.0, pitch);
    Rendered(run.trace, run.voice.(time := v.time + len))
  }

  /** Every segment boundary of a request but the last applies an event that
      was due in `[time, time + len)` and sits exactly there, no event is
      applied twice, events at the same time are applied in list order, and
      events are applied in order of their times. Conversely, every event due
      in the window is applied. */
  lemma GenerateApplies(v: Voice, len: real, pitch: PitchFn)
    ensures Applies(v.events, v.time, 0.0, len, Generate(v, len, pitch).trace)
    ensures AppliesAll(v.events, v.time, 0.0, len, Generate(v, len, pitch).trace)
    ensures var t := Generate(v, len, pitch).trace;
      forall i, j :: 0 <= i < j < |t| && t[i].event.Some? && t[j].event.Some? ==>
        v.events[t[i].event.value].time <= v.events[t[j].event.value].time
  {
    RunApplies(v, len, 0.0, pitch);
    RunAppliesAll(v, len, 0.0, pitch);
    var t := Generate(v, len, pitch).trace;
    forall i, j | 0 <= i < j < |t| && t[i].event.Some? && t[j].event.Some?
      ensures v.events[t[i].event.value].time <= v.events[t[j].event.value].time
    {
      EndsMonotone(t, 0.0, len, i, j);
    }
  }

  /** With no event due in the window, a request is one segment and only the
      cursor and the clock move. */
  lemma GenerateQuiet(v: Voice, len: real, pitch: PitchFn)
    requires NoneDue(v.events, v.time, v.time + len)
    ensures Generate(v, len, pitch).voice
         == v.(time := v.time + len, sample := Advance(v.sample, v.periodI, Steps(0.0, len)))
    ensures Generate(v, len, pitch).trace == if 0.0 < len then [Segment(0.0, len, None)] else []
  {
    if 0.0 < len {
      var b := NextBoundary(v.events, v.time, 0.0, len);
      assert b.first.None? && b.end == len;
      var v1 := SubGenerate(v, 0.0, len);
      assert Run(v1, len, len, pitch) == Rendered([], v1);
      assert Run(v, len, 0.0, pitch) == Rendered([Segment(0.0, len, None)], v1);
    }
  }

  /** A quiet whole-sample request moves the cursor one cell per sample. */
  lemma GenerateQuietWhole(v: Voice, n: nat, pitch: PitchFn)
    requires NoneDue(v.events, v.time, v.time + n as real)
    ensures Generate(v, n as real, pitch).voice
         == v.(time := v.time + n as real, sample := Advance(v.sample, v.periodI, n))
  {
    GenerateQuiet(v, n as real, pitch);
    StepsWhole(0.0, n);
  }

  /** Rendering `a` and then `b` samples with no event due leaves the string
      exactly as rendering `a + b` samples at once. */
  lemma GenerateSplit(v: Voice, a: nat, b: nat, pitch: PitchFn)
    requires NoneDue(v.events, v.time, v.time + a as real + b as real)
    ensures Generate(Generate(v, a as real, pitch).voice, b as real, pitch).voice
         == Generate(v, (a + b) as real, pitch).voice
  {
    var pa := Advance(v.sample, v.periodI, a);
    AdvanceAdd(v.sample, v.periodI, a, b);
    var w := v.(time := v.time + a as real, sample := pa);
    GenerateQuietWhole(v, a, pitch);
    assert NoneDue(w.events, w.time, w.time + b as real);
    GenerateQuietWhole(w, b, pitch);
    GenerateQuietWhole(v, a + b, pitch);
    var pab := Advance(v.sample, v.periodI, a + b);
    assert w.time + b as real == v.time + (a + b) as real;
    assert w.(time := w.time + b as real, sample := Advance(pa, w.periodI, b))
        == v.(time := v.time + (a + b) as real, sample := pab);
  }

  /** Segment ends never go back along a covering trace. */
  lemma {:induction false} EndsMonotone(trace: seq<Segment>, from: real, to: real, i: nat, j: nat)
    requires Covers(trace, from, to) && i <= j < |trace|
    ensures trace[i].end <= trace[j].end
    decreases j - i
  {
    if i < j {
      EndsMonotone(trace, from, to, i + 1, j);
    }
  }

  /** The actions a trace applies, in the order of its segments. */
  function Applied(evs: seq<Event>, trace: seq<Segment>): (r: seq<Action>)
    ensures |r| <= |trace|
    decreases |trace|
  {
    if |trace| == 0 then []
    else
      var head := if trace[0].event.Some? && trace[0].event.value < |evs|
                  then [evs[trace[0].event.value].action] else [];
      head + Applied(evs, trace[1..])
  }

  /** The damper setting of the last damp or undamp in `acts`, if any. */
  function LastDamp(acts: seq<Action>): Option<bool>
    decreases |acts|
  {
    if |acts| == 0 then None
    else
      var later := LastDamp(acts[1..]);
      if later.Some? then later
      else match acts[0]
        case Damp => Some(true)
        case Undamp => Some(false)
        case _ => None
  }

  /** The key of the last pluck or hammer-on in `acts`, if any. */
  function LastTune(acts: seq<Action>): Option<int>
    decreases |acts|
  {
    if |acts| == 0 then None
    else
      var later := LastTune(acts[1..]);
      if later.Some? then later
      else match acts[0]
        case Pluck(key) => Some(key)
        case Hammer(key) => Some(key)
        case _ => None
  }

  /** The number of plucks in `acts`. */
  function PlucksIn(acts: seq<Action>): nat
    decreases |acts|
  {
    if |acts| == 0 then 0
    else (if acts[0].Pluck? then 1 else 0) + PlucksIn(acts[1..])
  }

  /** The damper of `w` is that of `v` after `acts`: the last damp or
      undamp sets it, and without one it keeps its value in `v`. */
  predicate DampSettled(v: Voice, acts: seq<Action>, w: Voice)
  {
    w.damp == (if LastDamp(acts).Some? then LastDamp(acts).value else v.damp)
  }

  /** The tuning of `w` is that of `v` after `acts`: the last pluck or
      hammer-on sets the key, its period and loop length; without one they
      keep their values in `v`. */
  predicate TuneSettled(v: Voice, acts: seq<Action>, w: Voice, pitch: PitchFn)
  {
    match LastTune(acts)
    case None => w.key == v.key && w.period == v.period && w.periodI == v.periodI
    case Some(key) =>
      w.key == key && w.period == Period(pitch, key) && w.periodI == Ceil(Period(pitch, key))
  }

  /** Every pluck in `acts` counts once; without a pluck the excitation is
      untouched. */
  predicate PlucksSettled(v: Voice, acts: seq<Action>, w: Voice)
  {
    && w.plucks == v.plucks + PlucksIn(acts)
    && (PlucksIn(acts) == 0 ==> w.excitation == v.excitation)
  }

  /** `w` is `v` after the actions `acts`, as far as the damper, the tuning
      and the excitation go. */
  predicate Settled(v: Voice, acts: seq<Action>, w: Voice, pitch: PitchFn)
  {
    DampSettled(v, acts, w) && TuneSettled(v, acts, w, pitch) && PlucksSettled(v, acts, w)
  }

  /** The three folds over one action followed by a list. */
  lemma FoldsCons(a: Action, acts: seq<Action>)
    ensures LastDamp([a] + acts) == if LastDamp(acts).Some? then LastDamp(acts) else LastDamp([a])
    ensures LastTune([a] + acts) == if LastTune(acts).Some? then LastTune(acts) else LastTune([a])
    ensures PlucksIn([a] + acts) == PlucksIn([a]) + PlucksIn(acts)
  {
    assert ([a] + acts)[1..] == acts;
    assert [a][1..] == [];
  }

  /** The effects of one action followed by those of a list compose into
      the effects of the whole list. */
  lemma SettledCons(v: Voice, a: Action, v2: Voice, acts: seq<Action>, w: Voice, pitch: PitchFn)
    requires Settled(v, [a], v2, pitch) && Settled(v2, acts, w, pitch)
    ensures Settled(v, [a] + acts, w, pitch)
  {
    FoldsCons(a, acts);
    assert DampSettled(v, [a] + acts, w);
    assert PlucksSettled(v, [a] + acts, w);
    if LastTune(acts).Some? {
      assert TuneSettled(v, [a] + acts, w, pitch);
    } else {
      assert TuneSettled(v, [a] + acts, w, pitch);
    }
  }

  /** `Applied` reads only the actions, which `done` flags do not change. */
  lemma {:induction false} AppliedSameUpToDone(evs: seq<Event>, evs': seq<Event>, trace: seq<Segment>)
    requires SameUpToDone(evs, evs')
    ensures Applied(evs', trace) == Applied(evs, trace)
    decreases |trace|
  {
    if |trace| > 0 {
      AppliedSameUpToDone(evs, evs', trace[1..]);
    }
  }

  /** Applying event `k` after a segment has exactly that event's effect. */
  lemma ApplySettles(v: Voice, start: real, end: real, k: nat, pitch: PitchFn)
    requires k < |v.events|
    ensures Settled(v, [v.events[k].action], Apply(SubGenerate(v, start, end), k, pitch), pitch)
  {
    assert [v.events[k].action][1..] == [];
  }

  /** A segment applying event `k` puts its action in front of the rest. */
  lemma AppliedCons(evs: seq<Event>, seg: Segment, rest: seq<Segment>)
    requires seg.event.Some? && seg.event.value < |evs|
    ensures Applied(evs, [seg] + rest) == [evs[seg.event.value].action] + Applied(evs, rest)
  {
    assert ([seg] + rest)[1..] == rest;
  }

  /** After the loop the string carries the effects of exactly the events
      it applied, in the order it applied them. */
  lemma {:induction false} RunSettles(v: Voice, len: real, start: real, pitch: PitchFn)
    ensures Settled(v, Applied(v.events, Run(v, len, start, pitch).trace), Run(v, len, start, pitch).voice, pitch)
    decreases Pending(v.events), if start < len then 1 else 0
  {
    if start < len {
      var b := NextBoundary(v.events, v.time, start, len);
      var v1 := SubGenerate(v, start, b.end);
      match b.first
      case None =>
        assert Run(v, len, start, pitch) == Rendered([Segment(start, len, None)], v1);
        assert Applied(v.events, [Segment(start, len, None)]) == [];
      case Some(k) =>
        var v2 := Apply(v1, k, pitch);
        PendingMarkDone(v1.events, k);
        var rest := Run(v2, len, b.end, pitch);
        var seg := Segment(start, b.end, Some(k));
        assert Run(v, len, start, pitch) == Rendered([seg] + rest.trace, rest.voice);
        RunSettles(v2, len, b.end, pitch);
        AppliedSameUpToDone(v.events, v2.events, rest.trace);
        AppliedCons(v.events, seg, rest.trace);
        ApplySettles(v, start, b.end, k, pitch);
        SettledCons(v, v.events[k].action, v2, Applied(v.events, rest.trace), rest.voice, pitch);
    }
  }

  /** After a request the string carries the effects of the events applied
      at its segment boundaries: the last damp or undamp decides the damper,
      the last pluck or hammer-on the tuning, and every pluck counts. */
  lemma GenerateSettles(v: Voice, len: real, pitch: PitchFn)
    ensures var r := Generate(v, len, pitch);
      Settled(v, Applied(v.events, r.trace), r.voice, pitch)
  {
    RunSettles(v, len, 0.0, pitch);
  }
}
