/**
  The six-string instrument (`Synth.Guitar`): compiles the song into per-string
  event timelines, keeps the song clock, and loops the song when a request
  runs past its end.
 */
module Instrument {
  import opened Timeline
  import opened StringVoice
  import opened Patterns
  import opened Compile

  /** Samples per beat, computed as the source does (`44100 / 60 * 60`). */
  const BeatDelay: real := 44100.0 / 60.0 * 60.0
  /** Samples per strum step. */
  const StrumDelay: real := 6600.0

  datatype Guitar = Guitar(
    strings: seq<Voice>,
    song: Song,
    end: real,         // where the compiled song ends and the next pattern goes
    time: real,        // current playing position
    beatDelay: real,
    strumDelay: real)

  predicate SongOk(ps: seq<Pattern>)
  {
    forall j :: 0 <= j < |ps| ==> |ps[j].keys| == NumStrings
  }

  /** The shape every guitar has: six strings and six keys per pattern. */
  predicate GuitarOk(g: Guitar)
  {
    |g.strings| == NumStrings && SongOk(g.song.patterns)
  }

  /** `add_pattern(pat)`: schedules the pattern from the current end on every
      string, then moves the end on by the pattern's length. */
  function AddPattern(g: Guitar, pat: Pattern): (r: Guitar)
    requires |g.strings| == NumStrings && |pat.keys| == NumStrings
    ensures |r.strings| == NumStrings
    ensures forall i :: 0 <= i < NumStrings ==>
      r.strings[i] == g.strings[i].(events := g.strings[i].events +
        CompileStrum([], pat.strum, pat.keys[i], i, g.end, g.beatDelay, g.strumDelay))
    ensures r.end == g.end + pat.duration * g.beatDelay
    ensures r == g.(strings := r.strings, end := r.end)
  {
    var strings := seq(NumStrings, i requires 0 <= i < NumStrings =>
      g.strings[i].(events := CompileStrum(g.strings[i].events, pat.strum, pat.keys[i], i,
                                           g.end, g.beatDelay, g.strumDelay)));
    assert forall i :: 0 <= i < NumStrings ==>
      strings[i].events == g.strings[i].events +
        CompileStrum([], pat.strum, pat.keys[i], i, g.end, g.beatDelay, g.strumDelay)
    by {
      forall i | 0 <= i < NumStrings {
        StrumAppends(g.strings[i].events, pat.strum, pat.keys[i], i, g.end, g.beatDelay, g.strumDelay);
      }
    }
    g.(strings := strings, end := g.end + pat.duration * g.beatDelay)
  }

  /** Total length of a pattern list in samples. */
  function SongLength(ps: seq<Pattern>, beatDelay: real): real
  {
    if |ps| == 0 then 0.0 else ps[0].duration * beatDelay + SongLength(ps[1..], beatDelay)
  }

  /** The events of string `i` for a pattern list laid end to end from
      `start`: the reference timeline that resynchronising must produce. */
  function SongEvents(ps: seq<Pattern>, i: nat, start: real, beatDelay: real, strumDelay: real): seq<Event>
    requires SongOk(ps) && i < NumStrings
  {
    if |ps| == 0 then []
    else CompileStrum([], ps[0].strum, ps[0].keys[i], i, start, beatDelay, strumDelay)
         + SongEvents(ps[1..], i, start + ps[0].duration * beatDelay, beatDelay, strumDelay)
  }

  /** Appending the first pattern's events and then the rest's is
      appending the whole list's. */
  lemma SongEventsAppend(evs: seq<Event>, ps: seq<Pattern>, i: nat, start: real, next: real,
                         beatDelay: real, strumDelay: real)
    requires SongOk(ps) && i < NumStrings && |ps| > 0
    requires next == start + ps[0].duration * beatDelay
    ensures (evs + CompileStrum([], ps[0].strum, ps[0].keys[i], i, start, beatDelay, strumDelay))
          + SongEvents(ps[1..], i, next, beatDelay, strumDelay)
         == evs + SongEvents(ps, i, start, beatDelay, strumDelay)
  {
  }

  /** The characterisation `AddPatterns` promises, for guitar `r` built
      from `g` by compiling `ps`. */
  predicate AppendedSong(g: Guitar, ps: seq<Pattern>, r: Guitar)
    requires |g.strings| == NumStrings && SongOk(ps)
  {
    && |r.strings| == NumStrings
    && (forall i :: 0 <= i < NumStrings ==>
          r.strings[i] == g.strings[i].(events := g.strings[i].events +
            SongEvents(ps, i, g.end, g.beatDelay, g.strumDelay)))
    && r.end == g.end + SongLength(ps, g.beatDelay)
    && r == g.(strings := r.strings, end := r.end)
  }

  /** One pattern, then the rest: the step of `AddPatterns`. */
  lemma AppendedSongCons(g: Guitar, ps: seq<Pattern>, g1: Guitar, r: Guitar)
    requires |g.strings| == NumStrings && SongOk(ps) && |ps| > 0
    requires g1 == AddPattern(g, ps[0])
    requires AppendedSong(g1, ps[1..], r)
    ensures AppendedSong(g, ps, r)
  {
    assert g1 == g.(strings := g1.strings, end := g1.end);
    assert r == g1.(strings := r.strings, end := r.end);
    assert SongLength(ps, g.beatDelay) == ps[0].duration * g.beatDelay + SongLength(ps[1..], g.beatDelay);
    forall i: nat | i < NumStrings
      ensures r.strings[i] == g.strings[i].(events := g.strings[i].events +
        SongEvents(ps, i, g.end, g.beatDelay, g.strumDelay))
    {
      var cs := CompileStrum([], ps[0].strum, ps[0].keys[i], i, g.end, g.beatDelay, g.strumDelay);
      var rest := SongEvents(ps[1..], i, g1.end, g.beatDelay, g.strumDelay);
      assert g1.strings[i] == g.strings[i].(events := g.strings[i].events + cs);
      assert r.strings[i] == g1.strings[i].(events := g1.strings[i].events + rest);
      SongEventsAppend(g.strings[i].events, ps, i, g.end, g1.end, g.beatDelay, g.strumDelay);
    }
  }

  /** The loop of `syncSong` over the song's patterns. */
  function AddPatterns(g: Guitar, ps: seq<Pattern>): (r: Guitar)
    requires |g.strings| == NumStrings && SongOk(ps)
    ensures AppendedSong(g, ps, r)
    decreases |ps|
  {
    if |ps| == 0 then
      assert forall i :: 0 <= i < NumStrings ==> g.strings[i].events + [] == g.strings[i].events;
      g
    else
      var g1 := AddPattern(g, ps[0]);
      var r := AddPatterns(g1, ps[1..]);
      AppendedSongCons(g, ps, g1, r);
      r
  }

  /** `syncSong()`: empties every string's event list and compiles the whole
      song again from time 0. Every string ends up with exactly the song's
      reference timeline, the end is the song's length, and nothing else in
      the guitar or its strings changes. */
  function SyncSong(g: Guitar): (r: Guitar)
    requires GuitarOk(g)
    ensures GuitarOk(r)
    ensures forall i :: 0 <= i < NumStrings ==>
      r.strings[i] == g.strings[i].(events := SongEvents(g.song.patterns, i, 0.0, g.beatDelay, g.strumDelay))
    ensures r.end == SongLength(g.song.patterns, g.beatDelay)
    ensures r == g.(strings := r.strings, end := r.end)
  {
    var cleared := seq(NumStrings, i requires 0 <= i < NumStrings => g.strings[i].(events := []));
    var r := AddPatterns(g.(strings := cleared, end := 0.0), g.song.patterns);
    assert forall i :: 0 <= i < NumStrings ==>
      r.strings[i].events == SongEvents(g.song.patterns, i, 0.0, g.beatDelay, g.strumDelay)
    by {
      forall i | 0 <= i < NumStrings
        ensures r.strings[i].events == SongEvents(g.song.patterns, i, 0.0, g.beatDelay, g.strumDelay)
      {
        assert [] + SongEvents(g.song.patterns, i, 0.0, g.beatDelay, g.strumDelay)
            == SongEvents(g.song.patterns, i, 0.0, g.beatDelay, g.strumDelay);
      }
    }
    r
  }

  /** Resynchronising twice is resynchronising once. */
  lemma SyncSongIdempotent(g: Guitar)
    requires GuitarOk(g)
    ensures SyncSong(SyncSong(g)) == SyncSong(g)
  {
    var s1 := SyncSong(g);
    var s2 := SyncSong(s1);
    assert s2.strings == s1.strings;
  }

  /** Every string renders the same request. */
  function RenderAll(strings: seq<Voice>, len: real, pitch: PitchFn): (rs: seq<Rendered>)
    ensures |rs| == |strings|
    ensures forall i :: 0 <= i < |strings| ==> rs[i] == StringVoice.Generate(strings[i], len, pitch)
  {
    seq(|strings|, i requires 0 <= i < |strings| => StringVoice.Generate(strings[i], len, pitch))
  }

  function Voices(rs: seq<Rendered>): (vs: seq<Voice>)
    ensures |vs| == |rs| && forall i :: 0 <= i < |rs| ==> vs[i] == rs[i].voice
  {
    seq(|rs|, i requires 0 <= i < |rs| => rs[i].voice)
  }

  function Traces(rs: seq<Rendered>): (ts: seq<seq<Segment>>)
    ensures |ts| == |rs| && forall i :: 0 <= i < |rs| ==> ts[i] == rs[i].trace
  {
    seq(|rs|, i requires 0 <= i < |rs| => rs[i].trace)
  }

  /** Sets every string's clock back to 0. */
  function ResetClocks(vs: seq<Voice>): (ws: seq<Voice>)
    ensures |ws| == |vs| && forall i :: 0 <= i < |vs| ==> ws[i] == vs[i].(time := 0.0)
  {
    seq(|vs|, i requires 0 <= i < |vs| => vs[i].(time := 0.0))
  }

  /** A stretch of the output buffer, `[offset, offset + len)`, and the
      segment trace each string rendered into it (relative to `offset`). */
  datatype Part = Part(offset: real, len: real, traces: seq<seq<Segment>>)

  /** The guitar after filling one buffer, and the parts it was filled in. */
  datatype Frame = Frame(guitar: Guitar, parts: seq<Part>)

  /** Each string's trace tiles its part. */
  predicate PartCovered(p: Part)
  {
    forall i :: 0 <= i < |p.traces| ==> Covers(p.traces[i], 0.0, p.len)
  }

  /** The traces of a request rendered on every string tile its part. */
  lemma RenderedCovers(strings: seq<Voice>, offset: real, len: real, pitch: PitchFn)
    ensures PartCovered(Part(offset, len, Traces(RenderAll(strings, len, pitch))))
  {
  }

  /** What every call of `generate` keeps: the shape of the guitar and its
      song, traces that tile each part, and well-formed voices. */
  predicate FrameKept(g: Guitar, r: Frame)
  {
    && GuitarOk(r.guitar)
    && r.guitar.song == g.song && r.guitar.beatDelay == g.beatDelay && r.guitar.strumDelay == g.strumDelay
    && (forall p :: p in r.parts ==> |p.traces| == NumStrings && PartCovered(p))
    && ((forall i :: 0 <= i < |g.strings| ==> VoiceOk(g.strings[i])) ==>
          forall i :: 0 <= i < |r.guitar.strings| ==> VoiceOk(r.guitar.strings[i]))
  }

  /** A request of `n` samples that runs past the song's end: the buffer is
      split there. In the first part every string renders the rest of its
      old timeline; then its clock restarts at 0 and its events become the
      song compiled afresh, while its tuning, cursor, damper and excitation
      carry over; in the second part it renders the head of that timeline. */
  predicate Wrapped(g: Guitar, n: nat, pitch: PitchFn, r: Frame)
    requires |g.strings| == NumStrings && |r.guitar.strings| == NumStrings && SongOk(g.song.patterns)
  {
    && |r.parts| == 2
    && |r.parts[0].traces| == NumStrings && |r.parts[1].traces| == NumStrings
    && r.parts[0].offset == 0.0 && r.parts[0].len == g.end - g.time
    && r.parts[1].offset == r.parts[0].len && r.parts[0].len + r.parts[1].len == n as real
    && r.guitar == g.(strings := r.guitar.strings, time := r.parts[1].len,
                      end := SongLength(g.song.patterns, g.beatDelay))
    && (forall i :: 0 <= i < NumStrings ==>
          var tail := StringVoice.Generate(g.strings[i], g.end - g.time, pitch);
          var head := StringVoice.Generate(
            tail.voice.(time := 0.0, events := SongEvents(g.song.patterns, i, 0.0, g.beatDelay, g.strumDelay)),
            r.parts[1].len, pitch);
          && r.parts[0].traces[i] == tail.trace
          && r.parts[1].traces[i] == head.trace
          && r.guitar.strings[i] == head.voice)
    && (forall i :: 0 <= i < NumStrings ==> r.guitar.strings[i].time == r.parts[1].len)
    && (forall i :: 0 <= i < NumStrings ==>
          MarkedWindow(SongEvents(g.song.patterns, i, 0.0, g.beatDelay, g.strumDelay),
                       r.guitar.strings[i].events, 0.0, r.parts[1].len))
  }

  /** A request of `n` samples within the song: one part, in which every
      string renders the window `[time, time + n)` of its own timeline, and
      every clock moves on by `n`. */
  predicate Continued(g: Guitar, n: nat, pitch: PitchFn, r: Frame)
    requires |g.strings| == NumStrings && |r.guitar.strings| == NumStrings
  {
    && |r.parts| == 1 && |r.parts[0].traces| == NumStrings
    && r.parts[0].offset == 0.0 && r.parts[0].len == n as real
    && r.guitar == g.(strings := r.guitar.strings, time := g.time + n as real)
    && (forall i :: 0 <= i < NumStrings ==>
          && r.parts[0].traces[i] == StringVoice.Generate(g.strings[i], n as real, pitch).trace
          && r.guitar.strings[i] == StringVoice.Generate(g.strings[i], n as real, pitch).voice)
    && (forall i :: 0 <= i < NumStrings ==> r.guitar.strings[i].time == g.strings[i].time + n as real)
    && (forall i :: 0 <= i < NumStrings ==>
          MarkedWindow(g.strings[i].events, r.guitar.strings[i].events,
                       g.strings[i].time, g.strings[i].time + n as real))
  }

  /** The restart in the middle of a wrapping `generate`: the strings `vs`
      that finished the old timeline get their clocks set to 0 and the song
      is compiled again from time 0; nothing else about a string changes. */
  function Restart(g: Guitar, vs: seq<Voice>): (r: Guitar)
    requires GuitarOk(g) && |vs| == NumStrings
    ensures GuitarOk(r)
    ensures r == g.(strings := r.strings, time := 0.0, end := SongLength(g.song.patterns, g.beatDelay))
    ensures forall i :: 0 <= i < NumStrings ==>
      && r.strings[i] == vs[i].(time := 0.0, events := SongEvents(g.song.patterns, i, 0.0, g.beatDelay, g.strumDelay))
      && (VoiceOk(vs[i]) ==> VoiceOk(r.strings[i]))
  {
    var g1 := g.(strings := ResetClocks(vs), time := 0.0);
    var r := SyncSong(g1);
    forall i | 0 <= i < NumStrings
      ensures r.strings[i] == vs[i].(time := 0.0, events := SongEvents(g.song.patterns, i, 0.0, g.beatDelay, g.strumDelay))
    {
      assert g1.strings[i] == vs[i].(time := 0.0);
    }
    r
  }

  /** The wrapping branch of `generate`. */
  function GenerateWrapping(g: Guitar, n: nat, pitch: PitchFn): (r: Frame)
    requires GuitarOk(g) && g.time + n as real > g.end
    ensures FrameKept(g, r)
    ensures Wrapped(g, n, pitch, r)
  {
    var pre := RenderAll(g.strings, g.end - g.time, pitch);
    var left := g.time + n as real - g.end;
    var g2 := Restart(g, Voices(pre));
    var post := RenderAll(g2.strings, left, pitch);
    var r := Frame(g2.(strings := Voices(post), time := left),
                   [Part(0.0, g.end - g.time, Traces(pre)), Part(n as real - left, left, Traces(post))]);
    forall i | 0 <= i < NumStrings
      ensures r.guitar.strings[i].time == left
      ensures MarkedWindow(SongEvents(g.song.patterns, i, 0.0, g.beatDelay, g.strumDelay),
                           r.guitar.strings[i].events, 0.0, left)
      ensures r.parts[0].traces[i] == pre[i].trace
      ensures r.parts[1].traces[i] == post[i].trace && r.guitar.strings[i] == post[i].voice
      ensures post[i] == StringVoice.Generate(
                pre[i].voice.(time := 0.0, events := SongEvents(g.song.patterns, i, 0.0, g.beatDelay, g.strumDelay)),
                left, pitch)
    {
      assert r.guitar.strings[i] == post[i].voice;
      assert 0.0 + left == left;
    }
    RenderedCovers(g.strings, 0.0, g.end - g.time, pitch);
    RenderedCovers(g2.strings, n as real - left, left, pitch);
    r
  }

  /** The branch of `generate` that stays within the song. */
  function GenerateWithin(g: Guitar, n: nat, pitch: PitchFn): (r: Frame)
    requires GuitarOk(g) && g.time + n as real <= g.end
    ensures FrameKept(g, r)
    ensures Continued(g, n, pitch, r)
  {
    var all := RenderAll(g.strings, n as real, pitch);
    var r := Frame(g.(strings := Voices(all), time := g.time + n as real), [Part(0.0, n as real, Traces(all))]);
    forall i | 0 <= i < NumStrings
      ensures r.guitar.strings[i].time == g.strings[i].time + n as real
      ensures MarkedWindow(g.strings[i].events, r.guitar.strings[i].events,
                           g.strings[i].time, g.strings[i].time + n as real)
      ensures VoiceOk(g.strings[i]) ==> VoiceOk(r.guitar.strings[i])
      ensures r.parts[0].traces[i] == all[i].trace && r.guitar.strings[i] == all[i].voice
    {
      assert r.guitar.strings[i] == all[i].voice;
    }
    RenderedCovers(g.strings, 0.0, n as real, pitch);
    r
  }

  /** `generate(buf)` with `n == buf.length`. When the request runs past the
      song's end, the buffer is split there: the strings finish the old
      timeline, every clock is reset, the song is compiled again, and the
      rest of the buffer is rendered from the fresh timeline. Otherwise all
      `n` samples are rendered and the clock moves on by `n`. */
  function Generate(g: Guitar, n: nat, pitch: PitchFn): (r: Frame)
    requires GuitarOk(g)
    ensures FrameKept(g, r)
    ensures g.time + n as real > g.end ==> Wrapped(g, n, pitch, r)
    ensures g.time + n as real <= g.end ==> Continued(g, n, pitch, r)
  {
    if g.time + n as real > g.end then GenerateWrapping(g, n, pitch) else GenerateWithin(g, n, pitch)
  }

  /** The clock invariant `generate` keeps: the guitar is synchronised with
      its song, its position lies within the song, and every string's clock
      agrees with it. */
  predicate ClockOk(g: Guitar)
  {
    && GuitarOk(g)
    && g.end == SongLength(g.song.patterns, g.beatDelay)
    && 0.0 <= g.time <= g.end
    && forall i :: 0 <= i < NumStrings ==> g.strings[i].time == g.time
  }

  /** A request no longer than the song keeps the clock invariant, whether
      or not it wraps. */
  lemma GenerateKeepsClock(g: Guitar, n: nat, pitch: PitchFn)
    requires ClockOk(g) && n as real <= g.end
    ensures ClockOk(Generate(g, n, pitch).guitar)
  {
  }

  /** The built-in song is four two-beat patterns at 44100 samples a beat. */
  lemma DefaultSongLength()
    ensures SongLength(DefaultSong().patterns, BeatDelay) == 352800.0
  {
    var ps := DefaultSong().patterns;
    assert BeatDelay == 44100.0;
    assert ps[3..][1..] == [];
    assert SongLength(ps[3..], BeatDelay) == 88200.0;
    assert ps[2..][1..] == ps[3..];
    assert SongLength(ps[2..], BeatDelay) == 176400.0;
    assert ps[1..][1..] == ps[2..];
    assert SongLength(ps[1..], BeatDelay) == 264600.0;
    assert ps[0..] == ps;
  }

  /** `new Synth.Guitar()`: six strings fresh from `init`, the four-chord
      song, and the song compiled from time 0. */
  function NewGuitar(pitch: PitchFn): (g: Guitar)
    ensures ClockOk(g)
    ensures g.time == 0.0 && g.song == DefaultSong()
    ensures g.beatDelay == BeatDelay && g.strumDelay == StrumDelay
    ensures g.end == 352800.0
    ensures forall i :: 0 <= i < NumStrings ==>
      g.strings[i] == Init(pitch).(events := SongEvents(DefaultSong().patterns, i, 0.0, BeatDelay, StrumDelay))
    ensures forall i :: 0 <= i < NumStrings ==>
      && VoiceOk(g.strings[i]) && g.strings[i].key == InitialKey && !g.strings[i].damp
      && g.strings[i].events == SongEvents(DefaultSong().patterns, i, 0.0, BeatDelay, StrumDelay)
  {
    var song := DefaultSong();
    var blank := Init(pitch);
    var built := Guitar(seq(NumStrings, _ => blank), song, 0.0, 0.0, BeatDelay, StrumDelay);
    assert SongOk(song.patterns);
    var r := SyncSong(built);
    DefaultSongLength();
    forall i | 0 <= i < NumStrings
      ensures r.strings[i] == blank.(events := SongEvents(song.patterns, i, 0.0, BeatDelay, StrumDelay))
    {
      assert built.strings[i] == blank;
    }
    r
  }

  /** A new guitar is already synchronised with its song: resynchronising
      it changes nothing. */
  lemma NewGuitarSynced(pitch: PitchFn)
    ensures SyncSong(NewGuitar(pitch)) == NewGuitar(pitch)
  {
    var g := NewGuitar(pitch);
    var s := SyncSong(g);
    assert s.strings == g.strings;
  }

  /** The first event of every string in a song that opens with a default
      pattern is the pre-beat damp, at a negative time. */
  lemma OpeningDamp(ps: seq<Pattern>, i: nat, beatDelay: real, strumDelay: real)
    requires SongOk(ps) && |ps| > 0 && ps[0].strum == DefaultStrum() && i < NumStrings
    requires beatDelay > 0.0
    ensures |SongEvents(ps, i, 0.0, beatDelay, strumDelay)| > 0
    ensures SongEvents(ps, i, 0.0, beatDelay, strumDelay)[0]
         == Event(Damp, 0.0 - PreDampBeats * beatDelay - 1.0, false)
    ensures SongEvents(ps, i, 0.0, beatDelay, strumDelay)[0].time < 0.0
  {
    assert ps[0].strum == AllDamp(0.0) + SimpleStrum(0.0, 1);
    CompileMuteStrum([], 0.0, 1, ps[0].keys[i], i, 0.0, beatDelay, strumDelay);
    DefaultTimes(0.0, i, beatDelay, strumDelay);
  }

  /** After a wrapping `generate` the pre-beat damp that opens the song is
      still the first event of every string and is still pending: its time
      lies before 0, where the fresh clocks start, so the window rendered
      after the wrap does not reach it. */
  lemma WrapSkipsOpeningDamp(g: Guitar, n: nat, pitch: PitchFn)
    requires GuitarOk(g) && g.time + n as real > g.end
    requires |g.song.patterns| > 0 && g.song.patterns[0].strum == DefaultStrum() && g.beatDelay > 0.0
    ensures var strings := Generate(g, n, pitch).guitar.strings;
      forall i :: 0 <= i < NumStrings ==>
        |strings[i].events| > 0 && strings[i].events[0] == Event(Damp, 0.0 - PreDampBeats * g.beatDelay - 1.0, false)
  {
    var r := Generate(g, n, pitch);
    assert Wrapped(g, n, pitch, r);
    forall i | 0 <= i < NumStrings
      ensures |r.guitar.strings[i].events| > 0
      ensures r.guitar.strings[i].events[0] == Event(Damp, 0.0 - PreDampBeats * g.beatDelay - 1.0, false)
    {
      var evs := SongEvents(g.song.patterns, i, 0.0, g.beatDelay, g.strumDelay);
      OpeningDamp(g.song.patterns, i, g.beatDelay, g.strumDelay);
      assert MarkedWindow(evs, r.guitar.strings[i].events, 0.0, r.parts[1].len);
      assert !Due(evs[0], 0.0, r.parts[1].len);
    }
  }
}
