/**
  The per-string event list and the boundary scan of `String.generate`.

  An event is a timed action on one string (pluck, damp, undamp or hammer)
  with a `done` flag. Times are absolute sample positions and may be
  fractional. Each iteration of `String.generate` scans the whole list and
  picks the next boundary of the rendered request.
 */
module Timeline {
  import opened Wrappers

  /** What an event does to its string; pluck and hammer carry the midi key. */
  datatype Action = Pluck(key: int) | Damp | Undamp | Hammer(key: int)

  datatype Event = Event(action: Action, time: real, done: bool)

  /** Appends a pending event, as every `add_*` constructor does. */
  function Push(evs: seq<Event>, action: Action, time: real): (r: seq<Event>)
    ensures |r| == |evs| + 1 && r[..|evs|] == evs
    ensures r[|evs|].action == action && r[|evs|].time == time && !r[|evs|].done
  {
    evs + [Event(action, time, false)]
  }

  /** `add_pluck(time, key)`. */
  function AddPluck(evs: seq<Event>, time: real, key: int): (r: seq<Event>)
    ensures |r| == |evs| + 1 && r[..|evs|] == evs
    ensures r[|evs|] == Event(Pluck(key), time, false)
  {
    Push(evs, Pluck(key), time)
  }

  /** `add_damp(time)`. */
  function AddDamp(evs: seq<Event>, time: real): (r: seq<Event>)
    ensures |r| == |evs| + 1 && r[..|evs|] == evs
    ensures r[|evs|] == Event(Damp, time, false)
  {
    Push(evs, Damp, time)
  }

  /** `add_undamp(time)`. */
  function AddUndamp(evs: seq<Event>, time: real): (r: seq<Event>)
    ensures |r| == |evs| + 1 && r[..|evs|] == evs
    ensures r[|evs|] == Event(Undamp, time, false)
  {
    Push(evs, Undamp, time)
  }

  /** `add_hammer(time, key)`. */
  function AddHammer(evs: seq<Event>, time: real, key: int): (r: seq<Event>)
    ensures |r| == |evs| + 1 && r[..|evs|] == evs
    ensures r[|evs|] == Event(Hammer(key), time, false)
  {
    Push(evs, Hammer(key), time)
  }

  /** An event is due in the half-open window `[lo, hi)` when it is still
      pending and its time falls inside the window. */
  predicate Due(e: Event, lo: real, hi: real)
  {
    !e.done && lo <= e.time < hi
  }

  predicate NoneDue(evs: seq<Event>, lo: real, hi: real)
  {
    forall j :: 0 <= j < |evs| ==> !Due(evs[j], lo, hi)
  }

  /** Event `k` is the one to apply next: it is due, no due event is earlier,
      and every due event listed before it is strictly later (ties go to the
      event that comes first in the list). */
  predicate EarliestDue(evs: seq<Event>, lo: real, hi: real, k: nat)
  {
    && k < |evs|
    && Due(evs[k], lo, hi)
    && (forall j :: 0 <= j < |evs| && Due(evs[j], lo, hi) ==> evs[k].time <= evs[j].time)
    && (forall j :: 0 <= j < k && Due(evs[j], lo, hi) ==> evs[k].time < evs[j].time)
  }

  /** The outcome of one scan: the end of the next segment, relative to the
      string's clock, and the event to apply there, if any. */
  datatype Boundary = Boundary(end: real, first: Option<nat>)

  /** The scan's verdict for a request of `len` samples at clock `now`, with
      the segment starting at `start`: either nothing is due and the segment
      runs to `len`, or the earliest due event ends it at its own time. */
  predicate Chosen(evs: seq<Event>, now: real, start: real, len: real, b: Boundary)
  {
    match b.first
    case None => b.end == len && NoneDue(evs, now + start, now + len)
    case Some(k) => EarliestDue(evs, now + start, now + len, k) && b.end == evs[k].time - now
  }

  /** What the scan knows after looking at the first `i` events. */
  predicate ScanInvariant(evs: seq<Event>, now: real, start: real, len: real,
                          i: nat, end: real, first: Option<nat>)
  {
    var lo, hi := now + start, now + len;
    && i <= |evs|
    && match first
       case None =>
         end == len && forall j :: 0 <= j < i ==> !Due(evs[j], lo, hi)
       case Some(k) =>
         && k < i
         && Due(evs[k], lo, hi)
         && end == evs[k].time - now
         && (forall j :: 0 <= j < i && Due(evs[j], lo, hi) ==> evs[k].time <= evs[j].time)
         && (forall j :: 0 <= j < k && Due(evs[j], lo, hi) ==> evs[k].time < evs[j].time)
  }

  /** The inner loop of `String.generate` from list position `i`: an event
      earlier than the segment start is passed over; a pending event strictly
      before the tentative end becomes the candidate and shrinks the end to
      its time. */
  function ScanFrom(evs: seq<Event>, now: real, start: real, len: real,
                    i: nat, end: real, first: Option<nat>): (b: Boundary)
    requires ScanInvariant(evs, now, start, len, i, end, first)
    ensures Chosen(evs, now, start, len, b)
    decreases |evs| - i
  {
    if i == |evs| then Boundary(end, first)
    else if evs[i].time < now + start then ScanFrom(evs, now, start, len, i + 1, end, first)
    else if evs[i].time < now + end && !evs[i].done then
      ScanFrom(evs, now, start, len, i + 1, evs[i].time - now, Some(i))
    else ScanFrom(evs, now, start, len, i + 1, end, first)
  }

  /** The whole scan, starting with the end at `len` and no candidate. */
  function NextBoundary(evs: seq<Event>, now: real, start: real, len: real): (b: Boundary)
    ensures Chosen(evs, now, start, len, b)
    ensures b.first.None? ==> b.end == len
    ensures b.first.Some? ==> b.first.value < |evs| && !evs[b.first.value].done && start <= b.end < len
  {
    ScanFrom(evs, now, start, len, 0, len, None)
  }

  /** Number of pending events. */
  function Pending(evs: seq<Event>): nat
  {
    if |evs| == 0 then 0 else (if evs[0].done then 0 else 1) + Pending(evs[1..])
  }

  /** Marking one pending event done leaves one fewer pending event: the
      measure that makes `String.generate`'s loop terminate. */
  lemma {:induction false} PendingMarkDone(evs: seq<Event>, k: nat)
    requires k < |evs| && !evs[k].done
    ensures Pending(evs[k := evs[k].(done := true)]) == Pending(evs) - 1
    decreases k
  {
    var evs' := evs[k := evs[k].(done := true)];
    if k == 0 {
      assert evs'[1..] == evs[1..];
    } else {
      assert evs'[1..] == evs[1..][k - 1 := evs[k].(done := true)];
      PendingMarkDone(evs[1..], k - 1);
    }
  }
}
