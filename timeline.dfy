/** The timeline half of the MusicXML parser: every part's notes, chords and
    rests flattened into one chronologically sorted list of timed events in
    seconds, its total duration, and the two projections read from it (a time
    window and the rhythm game's note records).

    The music notation library that parses the document is outside the model:
    its output, each part's elements with their absolute offset and duration in
    quarter notes, is the input here. */
module Timeline {
  import opened Wrappers
  import opened Sequences
  import Text

  /** Fallbacks used when the score has no tempo marking, no time signature,
      or an element has no velocity. */
  const DEFAULT_TEMPO_BPM: real := 120.0
  const DEFAULT_TIME_SIGNATURE: (int, int) := (4, 4)
  const DEFAULT_VELOCITY: int := 64

  /** Notes lasting strictly longer than this many seconds are held in the game. */
  const HOLD_THRESHOLD_SECONDS: real := 0.5

  /** A pitch as the notation library reports it (name such as "C#", octave,
      MIDI number, frequency in hertz). */
  datatype Pitch = Pitch(name: string, octave: int, midi: int, frequency: real)

  datatype ElementKind =
    | NoteElement(pitch: Pitch, articulations: seq<string>)
    | ChordElement(pitches: seq<Pitch>, root: Option<string>, quality: Option<string>)
    | RestElement

  /** One element of a part's flattened stream: offset from the start of the
      piece and duration, both in quarter notes; the number of the enclosing
      measure, if any; the velocity attribute, if the element has one. */
  datatype ScoreElement = ScoreElement(
    offset: real,
    duration: real,
    kind: ElementKind,
    measure: Option<int>,
    velocity: Option<int>)

  /** The timing record shared by every event an element produces. */
  datatype Timing = Timing(
    startQuarters: real,
    durationQuarters: real,
    startSeconds: real,
    durationSeconds: real,
    measure: Option<int>)

  /** One entry of the timeline; a rest carries no pitch, octave or MIDI data. */
  datatype TimedEvent =
    | NoteEvent(pitch: Pitch, timing: Timing, velocity: int, articulations: seq<string>)
    | ChordNoteEvent(pitch: Pitch, timing: Timing, velocity: int, chordRoot: Option<string>, chordQuality: Option<string>)
    | RestEvent(timing: Timing)

  datatype NoteType = Tap | Hold

  /** A note as the rhythm game consumes it, times in milliseconds. */
  datatype GameNote = GameNote(
    midiNumber: int,
    startTimeMs: real,
    durationMs: real,
    pitchName: string,
    velocity: int,
    measure: Option<int>,
    noteType: NoteType)

  // ---------------------------------------------------------------------------
  // Tempo conversion and event building

  /** Seconds taken by `q` quarter notes at `bpm` quarter notes per minute. */
  function QuarterLengthToSeconds(bpm: real, q: real): (r: real)
    requires bpm > 0.0
    ensures r * bpm == 60.0 * q
  {
    (60.0 / bpm) * q
  }

  /** The conversion is linear in the quarter length and maps 0 to 0. */
  lemma QuarterLengthToSecondsLinear(bpm: real, a: real, b: real, k: real)
    requires bpm > 0.0
    ensures QuarterLengthToSeconds(bpm, 0.0) == 0.0
    ensures QuarterLengthToSeconds(bpm, a + b) == QuarterLengthToSeconds(bpm, a) + QuarterLengthToSeconds(bpm, b)
    ensures QuarterLengthToSeconds(bpm, k * a) == k * QuarterLengthToSeconds(bpm, a)
    ensures a <= b ==> QuarterLengthToSeconds(bpm, a) <= QuarterLengthToSeconds(bpm, b)
  {
    var c := 60.0 / bpm;
    assert c > 0.0;
    assert c * (a + b) == c * a + c * b;
    assert c * (k * a) == k * (c * a);
  }

  function ElementTiming(el: ScoreElement, bpm: real): Timing
    requires bpm > 0.0
  {
    Timing(el.offset, el.duration,
           QuarterLengthToSeconds(bpm, el.offset), QuarterLengthToSeconds(bpm, el.duration),
           el.measure)
  }

  /** One `chord_note` event per pitch, in the chord's pitch order. */
  function ChordNotes(pitches: seq<Pitch>, timing: Timing, velocity: int,
                      root: Option<string>, quality: Option<string>): seq<TimedEvent>
  {
    if pitches == [] then []
    else ChordNotes(pitches[..|pitches| - 1], timing, velocity, root, quality)
         + [ChordNoteEvent(pitches[|pitches| - 1], timing, velocity, root, quality)]
  }

  /** The events one element contributes to the timeline. */
  function ElementEvents(el: ScoreElement, bpm: real): seq<TimedEvent>
    requires bpm > 0.0
  {
    var timing := ElementTiming(el, bpm);
    match el.kind
    case NoteElement(pitch, articulations) =>
      [NoteEvent(pitch, timing, el.velocity.GetOr(DEFAULT_VELOCITY), articulations)]
    case ChordElement(pitches, root, quality) =>
      ChordNotes(pitches, timing, el.velocity.GetOr(DEFAULT_VELOCITY), root, quality)
    case RestElement =>
      [RestEvent(timing)]
  }

  /** The events of one part, in the order of its flattened stream. */
  function PartEvents(part: seq<ScoreElement>, bpm: real): seq<TimedEvent>
    requires bpm > 0.0
  {
    if part == [] then []
    else PartEvents(part[..|part| - 1], bpm) + ElementEvents(part[|part| - 1], bpm)
  }

  /** All parts' events concatenated, part after part, before sorting. */
  function ScoreEvents(parts: seq<seq<ScoreElement>>, bpm: real): seq<TimedEvent>
    requires bpm > 0.0
  {
    if parts == [] then []
    else ScoreEvents(parts[..|parts| - 1], bpm) + PartEvents(parts[|parts| - 1], bpm)
  }

  /** How many events an element yields: its pitch count for a chord, one otherwise. */
  function EventCount(el: ScoreElement): nat {
    if el.kind.ChordElement? then |el.kind.pitches| else 1
  }

  function PartEventCount(part: seq<ScoreElement>): nat {
    if part == [] then 0 else PartEventCount(part[..|part| - 1]) + EventCount(part[|part| - 1])
  }

  /** A chord of N pitches yields exactly N `chord_note` events, the k-th for
      the k-th pitch, all sharing the chord's timing, velocity and chord data. */
  lemma {:induction false} ChordNotesExplode(pitches: seq<Pitch>, timing: Timing, velocity: int,
                                             root: Option<string>, quality: Option<string>)
    ensures |ChordNotes(pitches, timing, velocity, root, quality)| == |pitches|
    ensures forall k :: 0 <= k < |pitches| ==>
      ChordNotes(pitches, timing, velocity, root, quality)[k] == ChordNoteEvent(pitches[k], timing, velocity, root, quality)
  {
    if pitches != [] {
      ChordNotesExplode(pitches[..|pitches| - 1], timing, velocity, root, quality);
    }
  }

  /** What each kind of element contributes: a note exactly one `note` event,
      a rest exactly one `rest` event, a chord its exploded `chord_note` events;
      every event carries the element's timing, and a missing velocity is 64. */
  lemma ElementEventsShape(el: ScoreElement, bpm: real)
    requires bpm > 0.0
    ensures |ElementEvents(el, bpm)| == EventCount(el)
    ensures forall e :: e in ElementEvents(el, bpm) ==> e.timing == ElementTiming(el, bpm)
    ensures el.kind.NoteElement? ==>
      ElementEvents(el, bpm) == [NoteEvent(el.kind.pitch, ElementTiming(el, bpm), el.velocity.GetOr(64), el.kind.articulations)]
    ensures el.kind.RestElement? ==> ElementEvents(el, bpm) == [RestEvent(ElementTiming(el, bpm))]
    ensures el.kind.ChordElement? ==> forall k :: 0 <= k < |el.kind.pitches| ==>
      ElementEvents(el, bpm)[k] == ChordNoteEvent(el.kind.pitches[k], ElementTiming(el, bpm),
                                                  el.velocity.GetOr(64), el.kind.root, el.kind.quality)
  {
    if el.kind.ChordElement? {
      var t := ElementTiming(el, bpm);
      var v := el.velocity.GetOr(DEFAULT_VELOCITY);
      ChordNotesExplode(el.kind.pitches, t, v, el.kind.root, el.kind.quality);
      forall e | e in ElementEvents(el, bpm) ensures e.timing == t {
        var k :| 0 <= k < |el.kind.pitches| && ElementEvents(el, bpm)[k] == e;
      }
    }
  }

  /** A part yields one event per note and rest and one per chord pitch. */
  lemma {:induction false} PartEventsCount(part: seq<ScoreElement>, bpm: real)
    requires bpm > 0.0
    ensures |PartEvents(part, bpm)| == PartEventCount(part)
  {
    if part != [] {
      PartEventsCount(part[..|part| - 1], bpm);
      ElementEventsShape(part[|part| - 1], bpm);
    }
  }

  // ---------------------------------------------------------------------------
  // Stable sort by start time

  function StartOf(e: TimedEvent): real { e.timing.startSeconds }

  function EndOf(e: TimedEvent): real { e.timing.startSeconds + e.timing.durationSeconds }

  predicate SortedByStart(s: seq<TimedEvent>) {
    forall i, j :: 0 <= i < j < |s| ==> StartOf(s[i]) <= StartOf(s[j])
  }

  /** The test "starts at exactly `t`". */
  function StartsAt(t: real): TimedEvent -> bool {
    e => StartOf(e) == t
  }

  /** The events of `s` starting at exactly `t`, in order. */
  function StartingAt(s: seq<TimedEvent>, t: real): seq<TimedEvent> {
    Filter(s, StartsAt(t))
  }

  /** Places `e` after every event of `s` that does not start later than it. */
  function InsertByStart(s: seq<TimedEvent>, e: TimedEvent): seq<TimedEvent> {
    if s == [] || StartOf(s[|s| - 1]) <= StartOf(e) then s + [e]
    else InsertByStart(s[..|s| - 1], e) + [s[|s| - 1]]
  }

  /** Python's stable `list.sort(key=start_time_seconds)`, as an insertion sort. */
  function SortByStart(s: seq<TimedEvent>): seq<TimedEvent> {
    if s == [] then [] else InsertByStart(SortByStart(s[..|s| - 1]), s[|s| - 1])
  }

  /** Every event of `InsertByStart(s, e)` is `e` or an event of `s`. */
  lemma {:induction false} InsertByStartElements(s: seq<TimedEvent>, e: TimedEvent)
    ensures multiset(InsertByStart(s, e)) == multiset(s) + multiset{e}
  {
    if !(s == [] || StartOf(s[|s| - 1]) <= StartOf(e)) {
      var s', last := s[..|s| - 1], s[|s| - 1];
      assert s == s' + [last];
      InsertByStartElements(s', e);
    }
  }

  lemma {:induction false} InsertByStartSorted(s: seq<TimedEvent>, e: TimedEvent)
    requires SortedByStart(s)
    ensures SortedByStart(InsertByStart(s, e))
  {
    if !(s == [] || StartOf(s[|s| - 1]) <= StartOf(e)) {
      var s', last := s[..|s| - 1], s[|s| - 1];
      var r' := InsertByStart(s', e);
      InsertByStartSorted(s', e);
      InsertByStartElements(s', e);
      forall i | 0 <= i < |r'| ensures StartOf(r'[i]) <= StartOf(last) {
        assert r'[i] in multiset(r');
        if r'[i] != e {
          assert r'[i] in multiset(s');
          var j :| 0 <= j < |s'| && s'[j] == r'[i];
        }
      }
      assert InsertByStart(s, e) == r' + [last];
    }
  }

  /** Inserting `e` puts it after every event that starts at the same time. */
  lemma {:induction false} InsertByStartStable(s: seq<TimedEvent>, e: TimedEvent, t: real)
    ensures StartingAt(InsertByStart(s, e), t) == StartingAt(s, t) + StartingAt([e], t)
  {
    if s == [] || StartOf(s[|s| - 1]) <= StartOf(e) {
      FilterAppend(s, [e], StartsAt(t));
    } else {
      var s', last := s[..|s| - 1], s[|s| - 1];
      var before, withE, withLast := StartingAt(s', t), StartingAt([e], t), StartingAt([last], t);
      assert StartingAt(InsertByStart(s, e), t) == before + withE + withLast by {
        var r' := InsertByStart(s', e);
        assert InsertByStart(s, e) == r' + [last];
        InsertByStartStable(s', e, t);
        FilterAppend(r', [last], StartsAt(t));
      }
      assert StartingAt(s, t) == before + withLast by {
        assert s == s' + [last];
        FilterAppend(s', [last], StartsAt(t));
      }
      // `last` starts strictly after `e`, so at most one of them starts at `t`.
      assert withE == [] || withLast == [] by {
        FilterSingleton(e, StartsAt(t));
        FilterSingleton(last, StartsAt(t));
      }
    }
  }

  /** The sort yields a chronologically ordered permutation of its input in
      which events that start together keep their input order. */
  lemma {:induction false} SortByStartCorrect(s: seq<TimedEvent>)
    ensures SortedByStart(SortByStart(s))
    ensures multiset(SortByStart(s)) == multiset(s)
    ensures forall t :: StartingAt(SortByStart(s), t) == StartingAt(s, t)
  {
    if s != [] {
      var s', last := s[..|s| - 1], s[|s| - 1];
      assert s == s' + [last];
      SortByStartCorrect(s');
      InsertByStartSorted(SortByStart(s'), last);
      InsertByStartElements(SortByStart(s'), last);
      forall t ensures StartingAt(SortByStart(s), t) == StartingAt(s, t) {
        InsertByStartStable(SortByStart(s'), last, t);
        FilterAppend(s', [last], StartsAt(t));
      }
    }
  }

  // ---------------------------------------------------------------------------
  // Total duration

  /** `max(start + duration for each event, default=0.0)`. */
  function MaxEnd(s: seq<TimedEvent>): (r: real)
    ensures s == [] ==> r == 0.0
    ensures forall i :: 0 <= i < |s| ==> EndOf(s[i]) <= r
    ensures s != [] ==> exists i :: 0 <= i < |s| && r == EndOf(s[i])
  {
    if s == [] then 0.0
    else if |s| == 1 then EndOf(s[0])
    else
      var m := MaxEnd(s[..|s| - 1]);
      assert forall i :: 0 <= i < |s| - 1 ==> s[..|s| - 1][i] == s[i];
      if EndOf(s[|s| - 1]) > m then EndOf(s[|s| - 1]) else m
  }

  /** The total duration does not depend on the order of the events, so it is
      the same before and after the sort. */
  lemma MaxEndPermutation(a: seq<TimedEvent>, b: seq<TimedEvent>)
    requires multiset(a) == multiset(b)
    ensures MaxEnd(a) == MaxEnd(b)
  {
    if a != [] {
      assert b != [] by { assert a[0] in multiset(b); }
      var i :| 0 <= i < |a| && MaxEnd(a) == EndOf(a[i]);
      var j :| 0 <= j < |b| && MaxEnd(b) == EndOf(b[j]);
      assert a[i] in multiset(b);
      var j' :| 0 <= j' < |b| && b[j'] == a[i];
      assert b[j] in multiset(a);
      var i' :| 0 <= i' < |a| && a[i'] == b[j];
    } else {
      assert |b| == |multiset(b)| == 0;
    }
  }

  /** What the timeline of a score is: the chronologically sorted, stable
      permutation of all parts' events, with the same total duration as the
      unsorted list. */
  lemma TimelineCorrect(parts: seq<seq<ScoreElement>>, bpm: real)
    requires bpm > 0.0
    ensures var tl := SortByStart(ScoreEvents(parts, bpm));
      && SortedByStart(tl)
      && multiset(tl) == multiset(ScoreEvents(parts, bpm))
      && (forall t :: StartingAt(tl, t) == StartingAt(ScoreEvents(parts, bpm), t))
      && MaxEnd(tl) == MaxEnd(ScoreEvents(parts, bpm))
  {
    var events := ScoreEvents(parts, bpm);
    SortByStartCorrect(events);
    MaxEndPermutation(SortByStart(events), events);
  }

  /** Two parts at 120 BPM: a quarter note at 0 and a half note at 1 in the
      first, a whole-bar rest at 0 in the second. The rest ties with the first
      note and comes after it, because the first part is read first. */
  lemma TwoPartTimeline(c4: Pitch, d4: Pitch)
    ensures var parts := [
        [ScoreElement(0.0, 1.0, NoteElement(c4, []), Some(1), None),
         ScoreElement(1.0, 2.0, NoteElement(d4, []), Some(1), None)],
        [ScoreElement(0.0, 4.0, RestElement, Some(1), None)]];
      SortByStart(ScoreEvents(parts, 120.0)) == [
        NoteEvent(c4, Timing(0.0, 1.0, 0.0, 0.5, Some(1)), 64, []),
        RestEvent(Timing(0.0, 4.0, 0.0, 2.0, Some(1))),
        NoteEvent(d4, Timing(1.0, 2.0, 0.5, 1.0, Some(1)), 64, [])]
  {
    var n1 := NoteEvent(c4, Timing(0.0, 1.0, 0.0, 0.5, Some(1)), 64, []);
    var n2 := NoteEvent(d4, Timing(1.0, 2.0, 0.5, 1.0, Some(1)), 64, []);
    var r := RestEvent(Timing(0.0, 4.0, 0.0, 2.0, Some(1)));
    TwoPartEvents(c4, d4);
    assert [n1, n2, r][..2] == [n1, n2] && [n1, n2][..1] == [n1];
    assert SortByStart([n1]) == [n1];
    assert SortByStart([n1, n2]) == [n1, n2];
    assert InsertByStart([n1], r) == [n1, r];
    assert InsertByStart([n1, n2], r) == [n1, r, n2];
  }

  lemma TwoPartEvents(c4: Pitch, d4: Pitch)
    ensures ScoreEvents([
        [ScoreElement(0.0, 1.0, NoteElement(c4, []), Some(1), None),
         ScoreElement(1.0, 2.0, NoteElement(d4, []), Some(1), None)],
        [ScoreElement(0.0, 4.0, RestElement, Some(1), None)]], 120.0) == [
        NoteEvent(c4, Timing(0.0, 1.0, 0.0, 0.5, Some(1)), 64, []),
        NoteEvent(d4, Timing(1.0, 2.0, 0.5, 1.0, Some(1)), 64, []),
        RestEvent(Timing(0.0, 4.0, 0.0, 2.0, Some(1)))]
  {
    var a := [ScoreElement(0.0, 1.0, NoteElement(c4, []), Some(1), None),
              ScoreElement(1.0, 2.0, NoteElement(d4, []), Some(1), None)];
    var b := [ScoreElement(0.0, 4.0, RestElement, Some(1), None)];
    var n1 := NoteEvent(c4, Timing(0.0, 1.0, 0.0, 0.5, Some(1)), 64, []);
    var n2 := NoteEvent(d4, Timing(1.0, 2.0, 0.5, 1.0, Some(1)), 64, []);
    var r := RestEvent(Timing(0.0, 4.0, 0.0, 2.0, Some(1)));
    assert [a, b][..1] == [a];
    assert a[..1] == [a[0]] && |[a[0]][..0]| == 0;
    assert ElementEvents(a[0], 120.0) == [n1];
    assert ElementEvents(a[1], 120.0) == [n2];
    assert PartEvents([a[0]], 120.0) == [n1];
    assert PartEvents(a, 120.0) == [n1, n2];
    assert |b[..0]| == 0;
    assert PartEvents(b, 120.0) == [r];
    var first: seq<seq<ScoreElement>> := [a];
    assert |first[..0]| == 0;
    assert ScoreEvents(first, 120.0) == [n1, n2];
  }

  // ---------------------------------------------------------------------------
  // Projections

  /** The open-interval overlap test: an event that ends exactly at `lo` or
      starts exactly at `hi` does not overlap. */
  predicate Overlaps(e: TimedEvent, lo: real, hi: real) {
    StartOf(e) < hi && EndOf(e) > lo
  }

  /** The test "overlaps the window (`lo`, `hi`)". */
  function OverlapsWindow(lo: real, hi: real): TimedEvent -> bool {
    e => Overlaps(e, lo, hi)
  }

  /** The events overlapping the window (`lo`, `hi`), in timeline order. */
  function NotesInRange(s: seq<TimedEvent>, lo: real, hi: real): seq<TimedEvent> {
    Filter(s, OverlapsWindow(lo, hi))
  }

  /** An event is in the window's result exactly when it is in the timeline and
      overlaps the window; the result keeps the timeline's chronological order. */
  lemma NotesInRangeCorrect(s: seq<TimedEvent>, lo: real, hi: real)
    ensures forall e :: e in NotesInRange(s, lo, hi) <==> e in s && StartOf(e) < hi && EndOf(e) > lo
    ensures SortedByStart(s) ==> SortedByStart(NotesInRange(s, lo, hi))
  {
    forall e ensures e in NotesInRange(s, lo, hi) <==> e in s && StartOf(e) < hi && EndOf(e) > lo {
      FilterMembership(s, OverlapsWindow(lo, hi), e);
    }
    if SortedByStart(s) {
      FilterSorted(s, OverlapsWindow(lo, hi));
    }
  }

  lemma {:induction false} FilterSorted(s: seq<TimedEvent>, p: TimedEvent -> bool)
    requires SortedByStart(s)
    ensures SortedByStart(Filter(s, p))
  {
    if s != [] {
      var s' := s[..|s| - 1];
      FilterSorted(s', p);
      FilterAll(s', p);
      var f' := Filter(s', p);
      forall i | 0 <= i < |f'| ensures StartOf(f'[i]) <= StartOf(s[|s| - 1]) {
        assert f'[i] in s';
      }
    }
  }

  predicate IsPitched(e: TimedEvent) {
    !e.RestEvent?
  }

  /** The game record of one pitched event. */
  function ToGameNote(e: TimedEvent): (g: GameNote)
    requires IsPitched(e)
  {
    GameNote(
      e.pitch.midi,
      e.timing.startSeconds * 1000.0,
      e.timing.durationSeconds * 1000.0,
      e.pitch.name + Text.IntToString(e.pitch.octave),
      e.velocity,
      e.timing.measure,
      if e.timing.durationSeconds > HOLD_THRESHOLD_SECONDS then Hold else Tap)
  }

  /** The game's notes: rests dropped, every other event converted, in order. */
  function GameNotes(s: seq<TimedEvent>): seq<GameNote> {
    if s == [] then []
    else GameNotes(s[..|s| - 1]) + (if IsPitched(s[|s| - 1]) then [ToGameNote(s[|s| - 1])] else [])
  }

  /** Exactly one record per `note`/`chord_note` event and none per rest, in
      timeline order: the k-th record is the k-th pitched event converted. */
  lemma {:induction false} GameNotesCorrect(s: seq<TimedEvent>)
    ensures |GameNotes(s)| == |Filter(s, IsPitched)|
    ensures forall k :: 0 <= k < |GameNotes(s)| ==>
      IsPitched(Filter(s, IsPitched)[k]) && GameNotes(s)[k] == ToGameNote(Filter(s, IsPitched)[k])
  {
    if s != [] {
      GameNotesCorrect(s[..|s| - 1]);
    }
  }

  /** Each record's times are the event's times in milliseconds, its measure
      and velocity are passed through, and it is a hold exactly when the event
      lasts strictly longer than half a second. */
  lemma ToGameNoteFields(e: TimedEvent)
    requires IsPitched(e)
    ensures ToGameNote(e).startTimeMs == 1000.0 * StartOf(e)
    ensures ToGameNote(e).durationMs == 1000.0 * e.timing.durationSeconds
    ensures ToGameNote(e).noteType == Hold <==> e.timing.durationSeconds > 0.5
    ensures ToGameNote(e).noteType == Tap <==> e.timing.durationSeconds <= 0.5
    ensures ToGameNote(e).midiNumber == e.pitch.midi && ToGameNote(e).velocity == e.velocity
    ensures ToGameNote(e).measure == e.timing.measure
  {
  }

  /** A chronological timeline gives chronological game notes. */
  lemma {:induction false} GameNotesSorted(s: seq<TimedEvent>)
    requires SortedByStart(s)
    ensures forall i, j :: 0 <= i < j < |GameNotes(s)| ==> GameNotes(s)[i].startTimeMs <= GameNotes(s)[j].startTimeMs
  {
    FilterSorted(s, IsPitched);
    GameNotesCorrect(s);
    var f := Filter(s, IsPitched);
    forall i, j | 0 <= i < j < |GameNotes(s)|
      ensures GameNotes(s)[i].startTimeMs <= GameNotes(s)[j].startTimeMs
    {
      assert StartOf(f[i]) <= StartOf(f[j]);
    }
  }

  /** Stated as a lemma so that the timeline loop uses the fact without
      proving it in its own, much larger, context. */
  lemma ConcatAssociative(a: seq<TimedEvent>, b: seq<TimedEvent>, c: seq<TimedEvent>)
    ensures (a + b) + c == a + (b + c)
  {
  }

  lemma AppendElement(part: seq<ScoreElement>, i: nat, bpm: real)
    requires i < |part| && bpm > 0.0
    ensures PartEvents(part[..i + 1], bpm) == PartEvents(part[..i], bpm) + ElementEvents(part[i], bpm)
  {
    assert part[..i + 1][..i] == part[..i];
  }

  lemma AppendPart(parts: seq<seq<ScoreElement>>, p: nat, bpm: real)
    requires p < |parts| && bpm > 0.0
    ensures ScoreEvents(parts[..p + 1], bpm) == ScoreEvents(parts[..p], bpm) + PartEvents(parts[p], bpm)
  {
    assert parts[..p + 1][..p] == parts[..p];
  }

  // ---------------------------------------------------------------------------
  // The parser object

  class MusicXMLParser {
    var tempoBpm: real
    var timeSignature: (int, int)
    var notes: seq<TimedEvent>
    var totalDuration: real

    ghost predicate Valid()
      reads this
    {
      tempoBpm > 0.0
    }

    /** A fresh parser: default tempo and time signature, an empty timeline. */
    constructor ()
      ensures Valid()
      ensures tempoBpm == DEFAULT_TEMPO_BPM && timeSignature == DEFAULT_TIME_SIGNATURE
      ensures notes == [] && totalDuration == 0.0
    {
      tempoBpm := DEFAULT_TEMPO_BPM;
      timeSignature := DEFAULT_TIME_SIGNATURE;
      notes := [];
      totalDuration := 0.0;
    }

    /** Adopts the first tempo marking's quarter-note BPM and the first time
        signature, where the score has them; otherwise keeps what is set. */
    method ExtractTempoAndTimeSignature(firstTempo: Option<real>, firstTimeSignature: Option<(int, int)>)
      requires Valid()
      requires firstTempo.Some? ==> firstTempo.value > 0.0
      modifies this
      ensures Valid()
      ensures tempoBpm == firstTempo.GetOr(old(tempoBpm))
      ensures timeSignature == firstTimeSignature.GetOr(old(timeSignature))
      ensures notes == old(notes) && totalDuration == old(totalDuration)
    {
      if firstTempo.Some? {
        tempoBpm := firstTempo.value;
      }
      if firstTimeSignature.Some? {
        timeSignature := firstTimeSignature.value;
      }
    }

    /** Builds the timeline: every part's elements turned into events and
        appended in order, then sorted by start time; the total duration is
        the latest event end. */
    method ExtractNotesAndTiming(parts: seq<seq<ScoreElement>>)
      requires Valid()
      modifies this
      ensures Valid() && tempoBpm == old(tempoBpm) && timeSignature == old(timeSignature)
      ensures notes == SortByStart(ScoreEvents(parts, tempoBpm))
      ensures totalDuration == MaxEnd(notes)
    {
      var bpm := tempoBpm;
      var notesData: seq<TimedEvent> := [];
      var p := 0;
      while p < |parts|
        invariant 0 <= p <= |parts|
        invariant unchanged(this)
        invariant notesData == ScoreEvents(parts[..p], bpm)
      {
        var part := parts[p];
        var i := 0;
        while i < |part|
          invariant 0 <= i <= |part|
          invariant unchanged(this)
          invariant notesData == ScoreEvents(parts[..p], bpm) + PartEvents(part[..i], bpm)
        {
          var el := part[i];
          var timing := ElementTiming(el, bpm);
          var velocity := el.velocity.GetOr(DEFAULT_VELOCITY);
          ghost var before := notesData;
          match el.kind {
            case NoteElement(pitch, articulations) =>
              notesData := notesData + [NoteEvent(pitch, timing, velocity, articulations)];
            case ChordElement(pitches, root, quality) =>
              var k := 0;
              while k < |pitches|
                invariant 0 <= k <= |pitches|
                invariant unchanged(this)
                invariant notesData == before + ChordNotes(pitches[..k], timing, velocity, root, quality)
              {
                assert pitches[..k + 1][..k] == pitches[..k];
                notesData := notesData + [ChordNoteEvent(pitches[k], timing, velocity, root, quality)];
                k := k + 1;
              }
              assert pitches[..k] == pitches;
            case RestElement =>
              notesData := notesData + [RestEvent(timing)];
          }
          assert notesData == before + ElementEvents(el, bpm);
          AppendElement(part, i, bpm);
          ConcatAssociative(ScoreEvents(parts[..p], bpm), PartEvents(part[..i], bpm), ElementEvents(el, bpm));
          i := i + 1;
        }
        assert part[..i] == part;
        AppendPart(parts, p, bpm);
        p := p + 1;
      }
      assert parts[..p] == parts;
      notes := SortByStart(notesData);
      totalDuration := MaxEnd(notes);
    }

    /** The music-independent part of parsing a file: tempo and time signature
        first, so that the timeline is built at the score's tempo. The measure
        table is read from the first part, so a score without parts fails
        (`ok` is false) after the fields below have already been set. */
    method ParseScore(firstTempo: Option<real>, firstTimeSignature: Option<(int, int)>,
                      parts: seq<seq<ScoreElement>>) returns (ok: bool)
      requires Valid()
      requires firstTempo.Some? ==> firstTempo.value > 0.0
      modifies this
      ensures ok <==> parts != []
      ensures Valid()
      ensures tempoBpm == firstTempo.GetOr(old(tempoBpm))
      ensures timeSignature == firstTimeSignature.GetOr(old(timeSignature))
      ensures notes == SortByStart(ScoreEvents(parts, tempoBpm))
      ensures totalDuration == MaxEnd(notes)
    {
      ExtractTempoAndTimeSignature(firstTempo, firstTimeSignature);
      ExtractNotesAndTiming(parts);
      ok := parts != [];
    }

    /** The events overlapping (`startSeconds`, `endSeconds`); without an end,
        the window runs to the total duration. */
    method GetNotesForRange(startSeconds: real := 0.0, endSeconds: Option<real> := None) returns (filtered: seq<TimedEvent>)
      ensures filtered == NotesInRange(notes, startSeconds, endSeconds.GetOr(totalDuration))
    {
      var hi := if endSeconds.None? then totalDuration else endSeconds.value;
      filtered := [];
      var i := 0;
      while i < |notes|
        invariant 0 <= i <= |notes|
        invariant filtered == NotesInRange(notes[..i], startSeconds, hi)
      {
        var noteStart := notes[i].timing.startSeconds;
        var noteEnd := noteStart + notes[i].timing.durationSeconds;
        if noteStart < hi && noteEnd > startSeconds {
          filtered := filtered + [notes[i]];
        }
        assert notes[..i + 1][..i] == notes[..i];
        i := i + 1;
      }
      assert notes[..i] == notes;
    }

    /** The timeline's pitched events as game records, in order. */
    method GetMidiNotesForGame() returns (gameNotes: seq<GameNote>)
      ensures gameNotes == GameNotes(notes)
    {
      gameNotes := [];
      var i := 0;
      while i < |notes|
        invariant 0 <= i <= |notes|
        invariant gameNotes == GameNotes(notes[..i])
      {
        var noteData := notes[i];
        if noteData.NoteEvent? || noteData.ChordNoteEvent? {
          var noteType := if noteData.timing.durationSeconds > HOLD_THRESHOLD_SECONDS then Hold else Tap;
          var gameNote := GameNote(
            noteData.pitch.midi,
            noteData.timing.startSeconds * 1000.0,
            noteData.timing.durationSeconds * 1000.0,
            noteData.pitch.name + Text.IntToString(noteData.pitch.octave),
            noteData.velocity,
            noteData.timing.measure,
            noteType);
          gameNotes := gameNotes + [gameNote];
        }
        assert notes[..i + 1][..i] == notes[..i];
        i := i + 1;
      }
      assert notes[..i] == notes;
    }
  }
}
