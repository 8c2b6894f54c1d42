# Cadence: timeline parser and interval drill, in Dafny

This project models the two computational cores of the Cadence ear-training app.

**The MusicXML timeline parser** (`MusicXMLParser`, module `Timeline`):
- It takes the elements of each part of a score and turns them into timed events:
  - notes;
  - chords, where each pitch becomes one `chord_note` event;
  - rests.
- Each element's offset and duration, given in quarter notes, are converted to seconds at the score's tempo.
- The events of all parts are put into one list, part after part, and stably sorted by start time.
- The total duration is the latest end time among the events.
- Two queries read the timeline:
  - the events that overlap a time window;
  - the pitched events as Notefall rhythm-game records, with millisecond times and a tap/hold type.
- The parser object keeps four pieces of state: the tempo (default 120 BPM), the time signature (default 4/4), the sorted events and the total duration. It is a Dafny `class` whose methods update these fields.
- The loop that builds the timeline is proved equal to the functions `ScoreEvents`, `SortByStart` and `MaxEnd`. The lemmas prove:
  - the sort returns a sorted permutation of its input;
  - the sort is stable: events that start at the same time keep the order in which the parts produced them;
  - the total duration does not depend on the order of the events.

**The interval drill** (modules `Drill` and `DrillGraph`):
- MIDI note numbering to and from names like "C#4", with round-trip lemmas in both directions.
- The interval table.
- Prompt generation. The interval, the root note and the session number are chosen at random in the source; here they are parameters, and the `requires` clauses give the ranges they are drawn from.
- Answer evaluation. The answer and the expected notes are compared as sets, and there are four feedback outcomes.
- The `CadenceDrillGraph` session object, whose `state` each step replaces.
- The scoring invariant: the score is a multiple of 10 and is at least 10 times the streak. Both steps preserve it.

Supporting modules:
- `Wrappers` defines `Option`.
- `Sequences` defines a generic `Filter` with its lemmas.
- `Text` implements Python's `str(int)` and proves it injective by proving a round trip through a parser.

## Model

| member | source | states |
|---|---|---|
| Timeline.QuarterLengthToSeconds | cadence-app/scripts/musicxml_parser.py:221-224 | seconds × BPM = 60 × quarter lengths, i.e. one quarter note lasts 60/BPM seconds |
| Timeline.QuarterLengthToSecondsLinear | cadence-app/scripts/musicxml_parser.py:221-224 | the conversion maps 0 to 0, is additive, homogeneous and monotone in the quarter length |
| Timeline.ChordNotesExplode | cadence-app/scripts/musicxml_parser.py:124-126 | a chord of N pitches yields exactly N `chord_note` events, the k-th for the k-th pitch, all with the chord's timing, velocity, root and quality |
| Timeline.ElementEventsShape | cadence-app/scripts/musicxml_parser.py:110-128 | a note yields exactly its one `note` event, a rest its one `rest` event, a chord its exploded pitches; every event carries the element's timing; a missing velocity becomes 64 |
| Timeline.PartEventsCount | cadence-app/scripts/musicxml_parser.py:109-128 | a part yields one event per note and rest plus one per chord pitch |
| Timeline.SortByStartCorrect | cadence-app/scripts/musicxml_parser.py:131 | the sort by start seconds returns a sorted permutation of its input that keeps, for every start time, the events starting then in their input order (stability) |
| Timeline.MaxEnd | cadence-app/scripts/musicxml_parser.py:134-139 | the total duration is 0 for no events, at least every event's end, and equal to some event's end otherwise |
| Timeline.MaxEndPermutation | cadence-app/scripts/musicxml_parser.py:131-139 | the total duration does not depend on the order of the events, so sorting first does not change it |
| Timeline.TimelineCorrect | cadence-app/scripts/musicxml_parser.py:104-139 | the timeline of any score is sorted, is a permutation of the concatenated part events, keeps per-start-time order, and has the same maximal end as before sorting |
| Timeline.TwoPartTimeline | cadence-app/scripts/musicxml_parser.py:104-131 | at 120 BPM, part A (quarter note at 0, half note at 1) and part B (whole rest at 0) give the note at 0.0 s (0.5 s), then the rest at 0.0 s (2.0 s), then the note at 0.5 s (1.0 s) |
| Timeline.NotesInRangeCorrect | cadence-app/scripts/musicxml_parser.py:231-240 | an event is in the window's result iff it is in the timeline, starts strictly before the end and ends strictly after the start; a sorted timeline gives a sorted result |
| Timeline.GameNotesCorrect | cadence-app/scripts/musicxml_parser.py:244-260 | the game notes are, in order, exactly the records of the timeline's `note` and `chord_note` events; rests are dropped |
| Timeline.ToGameNoteFields | cadence-app/scripts/musicxml_parser.py:249-257 | a record's start and duration are the event's in milliseconds, MIDI number, velocity and measure pass through, and it is a hold iff the event lasts strictly more than 0.5 s, a tap otherwise |
| Timeline.GameNotesSorted | cadence-app/scripts/musicxml_parser.py:242-260 | a chronological timeline gives game notes with non-decreasing start times |
| Timeline.MusicXMLParser.constructor | cadence-app/scripts/musicxml_parser.py:15-28 | a new parser has tempo 120, time signature (4, 4), no events and total duration 0 |
| Timeline.MusicXMLParser.ExtractTempoAndTimeSignature | cadence-app/scripts/musicxml_parser.py:63-71 | the first tempo marking's BPM and the first time signature replace the current values where present; otherwise the current values are kept; the timeline is untouched |
| Timeline.MusicXMLParser.ExtractNotesAndTiming | cadence-app/scripts/musicxml_parser.py:95-139 | the nested loops over parts, elements and chord pitches leave the events equal to the stable sort of every part's events at the current tempo, and the total duration equal to their latest end |
| Timeline.MusicXMLParser.ParseScore | cadence-app/scripts/musicxml_parser.py:30-51 | tempo and time signature are resolved before the timeline is built, so event seconds use the score's own tempo; parsing succeeds exactly when the score has at least one part, since the measure table reads the first part (line 203) |
| Timeline.MusicXMLParser.GetNotesForRange | cadence-app/scripts/musicxml_parser.py:226-240 | the loop returns the timeline's events overlapping (start, end) in timeline order; start defaults to 0 and a missing end to the total duration |
| Timeline.MusicXMLParser.GetMidiNotesForGame | cadence-app/scripts/musicxml_parser.py:242-260 | the loop returns one game record per pitched event, in timeline order |
| Text.IntToString | cadence-app/scripts/cadence_graph.py:45-47 | the decimal text of an integer is non-empty and starts with '-' exactly for negative numbers |
| Text.IntToStringRoundTrip | cadence-app/scripts/cadence_graph.py:45-47 | the decimal text of an integer parses back to that integer |
| Text.IntToStringInjective | cadence-app/scripts/cadence_graph.py:45-47 | distinct integers have distinct decimal texts |
| Drill.IndexOf | cadence-app/scripts/cadence_graph.py:40 | a name's position is absent iff the name is not in the list; otherwise it is the first position holding that name |
| Drill.NoteNameToNumber | cadence-app/scripts/cadence_graph.py:36-41 | a note name has a MIDI number (in any octave, default 4) iff it is one of the twelve names |
| Drill.NoteNameToNumberAt | cadence-app/scripts/cadence_graph.py:36-41 | the i-th name in octave o is MIDI number (o + 1) × 12 + i |
| Drill.NoteNameToNumberDivMod | cadence-app/scripts/cadence_graph.py:36-47 | the number of the i-th name in octave o has residue i and quotient o + 1 modulo 12 |
| Drill.NoteNameRoundTrip | cadence-app/scripts/cadence_graph.py:38-47 | naming the number of a name in an octave gives back the name followed by the octave |
| Drill.NoteNumberRoundTrip | cadence-app/scripts/cadence_graph.py:38-47 | every integer, negative ones included, is the number of its own name in its own octave (floor division and modulo) |
| Drill.NoteNumberToNameInjective | cadence-app/scripts/cadence_graph.py:43-47 | distinct MIDI numbers have distinct names |
| Drill.IntervalsWithinOctave | cadence-app/scripts/cadence_graph.py:50-69 | every interval spans 0 to 12 semitones; the prompt intervals are a fifth, a major third, a fourth and a major second (7, 4, 5, 2 semitones) |
| Drill.ChooseNotes | cadence-app/scripts/cadence_graph.py:76-82 | the two notes are the interval apart, the target is at most C7 (96), the root is kept whenever the target already fits, and otherwise the pair is exactly (96 − semitones, 96) |
| Drill.GeneratePromptCorrect | cadence-app/scripts/cadence_graph.py:66-97 | a prompt expects [root, root + interval], two distinct notes with the target at most 96 (the clamp never moves a drawn root); it names the interval and the root; the answer, feedback and completion flag are reset; score, streak and session are kept |
| Drill.EvaluateAnswerOutcomes | cadence-app/scripts/cadence_graph.py:99-124 | correct iff the answer and the expected notes are equal as sets, with +10 score and +1 streak; "no notes" iff nothing was played (and notes were expected), with score and streak kept; otherwise a wrong count of distinct notes, or wrong notes, resetting the streak; the outcomes cover every case |
| Drill.EvaluateAnswerFrame | cadence-app/scripts/cadence_graph.py:104-123 | evaluation marks the round complete and keeps session, prompt, expected notes and answer |
| Drill.EvaluateAnswerSetSemantics | cadence-app/scripts/cadence_graph.py:101-102 | answers with the same set of notes (any order, any repetition) get the same score and streak |
| Drill.GeneratePromptPreservesScoreInvariant | cadence-app/scripts/cadence_graph.py:86-95 | a new prompt keeps the score a multiple of 10 and at least 10 × streak, with streak ≥ 0 |
| Drill.EvaluateAnswerPreservesScoreInvariant | cadence-app/scripts/cadence_graph.py:106-121 | evaluating any answer keeps the score a multiple of 10 and at least 10 × streak, with streak ≥ 0 |
| Drill.RoundAnswers | cadence-app/scripts/cadence_graph.py:66-124 | after a prompt, playing its two notes in either order is correct and adds 10 points; playing the root alone is "wrong number of notes, expected 2, got 1" and resets the streak |
| DrillGraph.CadenceDrillGraph.constructor | cadence-app/scripts/cadence_graph.py:129-140 | a new session has empty prompt, notes and answer, zero score and streak, no feedback, is not complete, and is named "session_" followed by its number |
| DrillGraph.CadenceDrillGraph.StartDrill | cadence-app/scripts/cadence_graph.py:142-150 | the state becomes the generated prompt and the method reports its prompt, expected notes, score and streak; the score invariant is kept |
| DrillGraph.CadenceDrillGraph.EvaluateAnswer | cadence-app/scripts/cadence_graph.py:152-162 | the answer is stored and the state becomes its evaluation; the method reports feedback, score, streak and completion (always complete); the score invariant is kept |

## Left out

- Reading the MusicXML file and everything music21 computes is outside the model. This covers `converter.parse`, `part.flat` offsets, `getContextByClass(Measure)`, pitch names, octaves, MIDI numbers, frequencies, chord root and quality, and the velocity attribute. Their results, one `ScoreElement` per element of a part's flattened stream, are the input to `ExtractNotesAndTiming`.
- `parse_file`'s file-existence check is left out, because it is I/O. Its wrapping of every exception into one error is modelled only as `ParseScore` returning `false`, and only for the failure the modelled code can produce: a score with no parts.
- `_extract_metadata` and `_extract_key_signature` are left out. They copy library data into the output dictionary, and no other modelled operation depends on them.
- `_extract_measures` is left out except for its one failure. The per-measure records it builds are a projection of library objects that no modelled operation reads. Its indexing of the first part, which fails on a score with no parts, is what `ParseScore`'s `ok` result reports.
- `_get_element_timing` is left out because nothing calls it.
- The `parsed_data` dictionary is represented by the class fields. The duplicated `tempo` and `time_signature` entries are the same values as `tempoBpm` and `timeSignature`.
- Python floats are modelled as exact reals. The seconds and milliseconds are therefore exact, with no rounding.
- Timeline.MusicXMLParser.ExtractTempoAndTimeSignature requires a tempo marking's quarter-note BPM to be positive. The source divides by the BPM without checking it, so a zero or missing BPM from the library is not modelled.
- Timeline.SortByStart models Python's `list.sort` with a key (Timsort, which is stable) as a stable insertion sort. Only the properties of the result are claimed: it is sorted, it is a permutation, and it is stable. The algorithm itself is not claimed.
- Timeline.ToGameNote: `.get('velocity', 64)` and `.get('measure_number', 1)` never use their defaults, because every `note` and `chord_note` record has both keys. So a missing measure stays `None`, as in the source. The velocity default of 64 is applied earlier, when the event is built.
- A pitch whose octave is unknown is not modelled. The library would print its octave as `None`, and here the octave is always an integer.
- Drill.NoteNameToNumber returns `None` for an unknown name where the source raises `ValueError`.
- Drill.EvaluateAnswer models the feedback strings as a `Feedback` value. It records which branch produced the message and the counts and note names the message quotes. The emoji and wording are not modelled.
- The random choice of interval and root in `generate_prompt`, and of the session number in `__init__`, is left to the caller. These values are parameters constrained to the source's ranges (`COMMON_INTERVALS`, 60 to 84, 1000 to 9999).
- The LangGraph wiring (`create_langgraph_graph`), the command-line `main` functions and the JSON output are left out. They are I/O and framework plumbing.
- The notation view and text-to-speech generation live in other files. They are not part of this model.
- Every element becomes an event, including one without duration information; no element is dropped.
- A game record's missing measure stays `None`; it is not replaced by 1.
- The range test is open at both ends: `start < end && start + duration > startSeconds`.
