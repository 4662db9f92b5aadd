/**
  The pattern compiler of `Guitar.add_pattern`: the events one gesture list
  schedules on one string.
 */
module Compile {
  import opened Timeline
  import opened Patterns

  /** What one gesture schedules on string `i` (zero-based) whose pattern key
      is `key`, when the gesture falls at time `when`. A gesture naming the
      string plucks it, one sample after an undamp, or after a damp when the
      key is negative; a gesture naming the string negated damps it. */
  function CompileGesture(evs: seq<Event>, d: Gesture, key: int, i: nat, when: real): (r: seq<Event>)
    ensures d.key != i + 1 && d.key != -(i as int) - 1 ==> r == evs
    ensures |r| >= |evs| && r[..|evs|] == evs
  {
    var played :=
      if d.key == i + 1 && key != 0 then
        if key > 0 then AddPluck(AddUndamp(evs, when - 1.0), when, key)
        else AddPluck(AddDamp(evs, when - 1.0), when, -key)
      else evs;
    if d.key == -(i as int) - 1 then AddDamp(played, when - 1.0) else played
  }

  /** Time of a gesture in a pattern starting at `start`. */
  function GestureTime(d: Gesture, start: real, beatDelay: real, strumDelay: real): real
  {
    start + d.beat * beatDelay + d.no as real * strumDelay
  }

  /** Gesture times move with the pattern's start, and on one beat a
      gesture with a later step sounds no earlier. */
  lemma GestureTiming(d: Gesture, e: Gesture, start: real, shift: real, beatDelay: real, strumDelay: real)
    ensures GestureTime(d, start + shift, beatDelay, strumDelay) == GestureTime(d, start, beatDelay, strumDelay) + shift
    ensures d.beat == e.beat && d.no <= e.no && 0.0 <= strumDelay ==>
      GestureTime(d, start, beatDelay, strumDelay) <= GestureTime(e, start, beatDelay, strumDelay)
  {
    if d.beat == e.beat && d.no <= e.no && 0.0 <= strumDelay {
      assert e.no as real * strumDelay - d.no as real * strumDelay == (e.no - d.no) as real * strumDelay;
    }
  }

  /** The inner loop of `add_pattern` over the gesture list, for string `i`. */
  function CompileStrum(evs: seq<Event>, strum: seq<Gesture>, key: int, i: nat,
                        start: real, beatDelay: real, strumDelay: real): (r: seq<Event>)
    decreases |strum|
  {
    if |strum| == 0 then evs
    else
      var d := strum[0];
      CompileStrum(CompileGesture(evs, d, key, i, GestureTime(d, start, beatDelay, strumDelay)),
                   strum[1..], key, i, start, beatDelay, strumDelay)
  }

  /** A gesture only appends: what it schedules does not depend on the
      events already there. */
  lemma GestureAppends(evs: seq<Event>, d: Gesture, key: int, i: nat, when: real)
    ensures CompileGesture(evs, d, key, i, when) == evs + CompileGesture([], d, key, i, when)
  {
  }

  /** Compiling a gesture list only appends to the string's events. */
  lemma {:induction false} StrumAppends(evs: seq<Event>, strum: seq<Gesture>, key: int, i: nat,
                                        start: real, beatDelay: real, strumDelay: real)
    ensures CompileStrum(evs, strum, key, i, start, beatDelay, strumDelay)
         == evs + CompileStrum([], strum, key, i, start, beatDelay, strumDelay)
    decreases |strum|
  {
    if |strum| > 0 {
      var d := strum[0];
      var when := GestureTime(d, start, beatDelay, strumDelay);
      var e1 := CompileGesture(evs, d, key, i, when);
      var g := CompileGesture([], d, key, i, when);
      var tail := CompileStrum([], strum[1..], key, i, start, beatDelay, strumDelay);
      GestureAppends(evs, d, key, i, when);
      StrumAppends(e1, strum[1..], key, i, start, beatDelay, strumDelay);
      StrumAppends(g, strum[1..], key, i, start, beatDelay, strumDelay);
      AppendAssoc(evs, g, tail);
    }
  }

  /** Concatenation of event lists is associative. Stated as a lemma so
      `StrumAppends` can use it at one point instead of searching for it. */
  lemma AppendAssoc(a: seq<Event>, b: seq<Event>, c: seq<Event>)
    ensures (a + b) + c == a + (b + c)
  {
  }

  /** One gesture adds at most two events to a string. */
  lemma GestureLength(evs: seq<Event>, d: Gesture, key: int, i: nat, when: real)
    ensures |CompileGesture(evs, d, key, i, when)| <= |evs| + 2
  {
  }

  /** A gesture list adds at most two events per gesture to a string: an
      undamp or a damp one sample early and a pluck, or a single damp. */
  lemma {:induction false} StrumLength(evs: seq<Event>, strum: seq<Gesture>, key: int, i: nat,
                                       start: real, beatDelay: real, strumDelay: real)
    ensures |evs| <= |CompileStrum(evs, strum, key, i, start, beatDelay, strumDelay)| <= |evs| + 2 * |strum|
    decreases |strum|
  {
    if |strum| > 0 {
      var d := strum[0];
      var e1 := CompileGesture(evs, d, key, i, GestureTime(d, start, beatDelay, strumDelay));
      GestureLength(evs, d, key, i, GestureTime(d, start, beatDelay, strumDelay));
      StrumLength(e1, strum[1..], key, i, start, beatDelay, strumDelay);
    }
  }

  /** Compiling `a + b` is compiling `a` and then `b`. */
  lemma {:induction false} StrumSplit(evs: seq<Event>, a: seq<Gesture>, b: seq<Gesture>, key: int, i: nat,
                                      start: real, beatDelay: real, strumDelay: real)
    ensures CompileStrum(evs, a + b, key, i, start, beatDelay, strumDelay)
         == CompileStrum(CompileStrum(evs, a, key, i, start, beatDelay, strumDelay), b,
                         key, i, start, beatDelay, strumDelay)
    decreases |a|
  {
    if |a| == 0 {
      assert a + b == b;
    } else {
      assert (a + b)[1..] == a[1..] + b;
      var when := GestureTime(a[0], start, beatDelay, strumDelay);
      StrumSplit(CompileGesture(evs, a[0], key, i, when), a[1..], b, key, i, start, beatDelay, strumDelay);
    }
  }

  /** Gestures that name other strings schedule nothing on string `i`. */
  lemma {:induction false} StrumUntargeted(evs: seq<Event>, strum: seq<Gesture>, key: int, i: nat,
                                           start: real, beatDelay: real, strumDelay: real)
    requires forall j :: 0 <= j < |strum| ==> strum[j].key != i + 1 && strum[j].key != -(i as int) - 1
    ensures CompileStrum(evs, strum, key, i, start, beatDelay, strumDelay) == evs
    decreases |strum|
  {
    if |strum| > 0 {
      StrumUntargeted(evs, strum[1..], key, i, start, beatDelay, strumDelay);
    }
  }

  /** A gesture list in which only position `j` names string `i` schedules
      just what that gesture does. */
  lemma StrumSingle(evs: seq<Event>, strum: seq<Gesture>, j: nat, key: int, i: nat,
                    start: real, beatDelay: real, strumDelay: real)
    requires j < |strum|
    requires forall m :: 0 <= m < |strum| && m != j ==> strum[m].key != i + 1 && strum[m].key != -(i as int) - 1
    ensures CompileStrum(evs, strum, key, i, start, beatDelay, strumDelay)
         == CompileGesture(evs, strum[j], key, i, GestureTime(strum[j], start, beatDelay, strumDelay))
  {
    var pre, mid, post := strum[..j], [strum[j]], strum[j + 1..];
    assert strum == pre + (mid + post);
    StrumSplit(evs, pre, mid + post, key, i, start, beatDelay, strumDelay);
    StrumUntargeted(evs, pre, key, i, start, beatDelay, strumDelay);
    StrumSplit(evs, mid, post, key, i, start, beatDelay, strumDelay);
    var e1 := CompileStrum(evs, mid, key, i, start, beatDelay, strumDelay);
    StrumUntargeted(e1, post, key, i, start, beatDelay, strumDelay);
  }

  /** The events a strum gesture puts on a string with key `key` at time
      `when`: nothing for key 0, otherwise an undamp (a damp for a negative
      key) one sample early and a pluck of `|key|` on time. */
  function PlayEvents(key: int, when: real): seq<Event>
  {
    if key > 0 then [Event(Undamp, when - 1.0, false), Event(Pluck(key), when, false)]
    else if key < 0 then [Event(Damp, when - 1.0, false), Event(Pluck(-key), when, false)]
    else []
  }

  /** `all_damp(beat)` puts one damp on string `i`, one sample before the
      mute. */
  lemma CompileAllDamp(evs: seq<Event>, beat: real, key: int, i: nat,
                       start: real, beatDelay: real, strumDelay: real)
    requires i < NumStrings
    ensures CompileStrum(evs, AllDamp(beat), key, i, start, beatDelay, strumDelay)
         == evs + [Event(Damp, start + (beat - PreDampBeats) * beatDelay - 1.0, false)]
  {
    var damps := AllDamp(beat);
    StrumSingle(evs, damps, i, key, i, start, beatDelay, strumDelay);
    var d := damps[i];
    assert d == Gesture(-(i + 1), beat - PreDampBeats, 0);
    assert GestureTime(d, start, beatDelay, strumDelay) == start + (beat - PreDampBeats) * beatDelay;
  }

  /** A gesture naming string `i` appends the string's play events. */
  lemma PlayGesture(evs: seq<Event>, d: Gesture, key: int, i: nat, when: real)
    requires d.key == i + 1
    ensures CompileGesture(evs, d, key, i, when) == evs + PlayEvents(key, when)
  {
    if key > 0 {
      assert AddUndamp(evs, when - 1.0) == evs + [Event(Undamp, when - 1.0, false)];
    } else if key < 0 {
      assert AddDamp(evs, when - 1.0) == evs + [Event(Damp, when - 1.0, false)];
    }
  }

  /** `simple_strum(beat, offset)` plays string `i` on its step, `i * offset`
      strum steps after the beat. */
  lemma CompileSimpleStrum(evs: seq<Event>, beat: real, offset: int, key: int, i: nat,
                           start: real, beatDelay: real, strumDelay: real)
    requires i < NumStrings
    ensures CompileStrum(evs, SimpleStrum(beat, offset), key, i, start, beatDelay, strumDelay)
         == evs + PlayEvents(key, start + beat * beatDelay + (i * offset) as real * strumDelay)
  {
    var strums := SimpleStrum(beat, offset);
    StrumSingle(evs, strums, i, key, i, start, beatDelay, strumDelay);
    var d := strums[i];
    assert d == Gesture(i + 1, beat, i * offset);
    assert GestureTime(d, start, beatDelay, strumDelay)
        == start + beat * beatDelay + (i * offset) as real * strumDelay;
    PlayGesture(evs, d, key, i, GestureTime(d, start, beatDelay, strumDelay));
  }

  /** The gesture times of the default list, simplified. */
  lemma DefaultTimes(start: real, i: nat, beatDelay: real, strumDelay: real)
    ensures start + (0.0 - PreDampBeats) * beatDelay == start - PreDampBeats * beatDelay
    ensures start + 0.0 * beatDelay + (i * 1) as real * strumDelay == start + i as real * strumDelay
  {
  }

  /** A pattern that mutes every string at `beat` and then strums them:
      string `i` gets the damp, then its play events. */
  lemma CompileMuteStrum(evs: seq<Event>, beat: real, offset: int, key: int, i: nat,
                         start: real, beatDelay: real, strumDelay: real)
    requires i < NumStrings
    ensures CompileStrum(evs, AllDamp(beat) + SimpleStrum(beat, offset), key, i, start, beatDelay, strumDelay)
         == evs + ([Event(Damp, start + (beat - PreDampBeats) * beatDelay - 1.0, false)]
                   + PlayEvents(key, start + beat * beatDelay + (i * offset) as real * strumDelay))
  {
    var damps, strums := AllDamp(beat), SimpleStrum(beat, offset);
    StrumSplit(evs, damps, strums, key, i, start, beatDelay, strumDelay);
    CompileAllDamp(evs, beat, key, i, start, beatDelay, strumDelay);
    var e1 := CompileStrum(evs, damps, key, i, start, beatDelay, strumDelay);
    CompileSimpleStrum(e1, beat, offset, key, i, start, beatDelay, strumDelay);
    var damp := [Event(Damp, start + (beat - PreDampBeats) * beatDelay - 1.0, false)];
    var play := PlayEvents(key, start + beat * beatDelay + (i * offset) as real * strumDelay);
    assert (evs + damp) + play == evs + (damp + play);
  }

  /** `new Pattern(keys)` starting at `start`: string `i` gets a damp one
      sample before `start - 0.0001 * beat_delay`, then the play events of
      its key at `start + i * strum_delay`. */
  lemma CompileDefaultPattern(evs: seq<Event>, pat: Pattern, i: nat,
                              start: real, beatDelay: real, strumDelay: real)
    requires pat.strum == DefaultStrum() && i < NumStrings && i < |pat.keys|
    ensures CompileStrum(evs, pat.strum, pat.keys[i], i, start, beatDelay, strumDelay)
         == evs + ([Event(Damp, start - PreDampBeats * beatDelay - 1.0, false)]
                   + PlayEvents(pat.keys[i], start + i as real * strumDelay))
  {
    assert pat.strum == AllDamp(0.0) + SimpleStrum(0.0, 1);
    CompileMuteStrum(evs, 0.0, 1, pat.keys[i], i, start, beatDelay, strumDelay);
    DefaultTimes(start, i, beatDelay, strumDelay);
  }
}
