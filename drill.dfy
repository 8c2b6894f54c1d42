/** The interval drill: MIDI note numbering, the interval table, and the two
    steps of a drill round (prompt generation and answer evaluation) as pure
    transitions of the drill state. The random interval, root note and session
    number are parameters here. */
module Drill {
  import opened Wrappers
  import Text

  const NOTE_NAMES: seq<string> := ["C", "C#", "D", "D#", "E", "F", "F#", "G", "G#", "A", "A#", "B"]

  /** Interval names and their sizes in semitones. */
  const INTERVALS: map<string, int> := map[
    "Perfect Unison" := 0,
    "Minor Second" := 1,
    "Major Second" := 2,
    "Minor Third" := 3,
    "Major Third" := 4,
    "Perfect Fourth" := 5,
    "Tritone" := 6,
    "Perfect Fifth" := 7,
    "Minor Sixth" := 8,
    "Major Sixth" := 9,
    "Minor Seventh" := 10,
    "Major Seventh" := 11,
    "Perfect Octave" := 12
  ]

  /** The intervals prompts are drawn from. */
  const COMMON_INTERVALS: seq<string> := ["Perfect Fifth", "Major Third", "Perfect Fourth", "Major Second"]

  /** Range of the random root note (C4 to C6) and the ceiling for the target (C7). */
  const LOWEST_ROOT: int := 60
  const HIGHEST_ROOT: int := 84
  const HIGHEST_TARGET: int := 96

  /** Points for a correct answer. */
  const POINTS_PER_CORRECT: int := 10

  // ---------------------------------------------------------------------------
  // Note numbering

  /** Python's `list.index`: the first position of `x`, or None where Python
      raises ValueError. */
  function IndexOf(xs: seq<string>, x: string): (r: Option<nat>)
    ensures r.None? <==> x !in xs
    ensures r.Some? ==> r.value < |xs| && xs[r.value] == x
    ensures r.Some? ==> forall j :: 0 <= j < r.value ==> xs[j] != x
  {
    if xs == [] then None
    else if xs[0] == x then Some(0)
    else match IndexOf(xs[1..], x)
      case None => None
      case Some(i) => Some(i + 1)
  }

  /** MIDI number of a note name in an octave (octave 4 holds middle C, 60);
      None for a name that is not one of the twelve. */
  function NoteNameToNumber(name: string, octave: int := 4): (r: Option<int>)
    ensures r.None? <==> name !in NOTE_NAMES
  {
    NumberIn(NOTE_NAMES, name, octave)
  }

  /** The number of `name` in `octave`, for a scale of twelve names listed in `names`. */
  function NumberIn(names: seq<string>, name: string, octave: int): (r: Option<int>)
    ensures r.None? <==> name !in names
  {
    match IndexOf(names, name)
    case None => None
    case Some(baseNote) => Some((octave + 1) * 12 + baseNote)
  }

  /** Name and octave of a MIDI number, such as "C4" for 60 or "B-1" for 11.
      Python's `//` and `%` by 12 round toward minus infinity, which for a
      positive divisor is what Dafny's `/` and `%` do. */
  function NoteNumberToName(n: int): string {
    NOTE_NAMES[n % 12] + Text.IntToString(n / 12 - 1)
  }

  predicate AllDistinct(xs: seq<string>) {
    forall i, j :: 0 <= i < j < |xs| ==> xs[i] != xs[j]
  }

  lemma NoteNamesDistinct()
    ensures AllDistinct(NOTE_NAMES)
  {
  }

  lemma NumberInAt(names: seq<string>, i: int, octave: int)
    requires AllDistinct(names) && 0 <= i < |names|
    ensures NumberIn(names, names[i], octave) == Some((octave + 1) * 12 + i)
  {
    var r := IndexOf(names, names[i]);
  }

  /** The twelve names number the twelve positions of an octave. */
  lemma NoteNameToNumberAt(i: int, octave: int)
    requires 0 <= i < |NOTE_NAMES|
    ensures NoteNameToNumber(NOTE_NAMES[i], octave) == Some((octave + 1) * 12 + i)
  {
    NoteNamesDistinct();
    NumberInAt(NOTE_NAMES, i, octave);
  }

  /** The number of the i-th name in an octave has i as its residue mod 12
      and the octave plus one as its quotient. */
  lemma NoteNameToNumberDivMod(i: int, octave: int)
    requires 0 <= i < |NOTE_NAMES|
    ensures NoteNameToNumber(NOTE_NAMES[i], octave).value % 12 == i
    ensures NoteNameToNumber(NOTE_NAMES[i], octave).value / 12 == octave + 1
  {
    NoteNameToNumberAt(i, octave);
    DivModUnique(NoteNameToNumber(NOTE_NAMES[i], octave).value, octave + 1, i);
  }

  lemma NoteNameIndex(name: string) returns (i: int)
    requires name in NOTE_NAMES
    ensures 0 <= i < |NOTE_NAMES| && NOTE_NAMES[i] == name
  {
    i :| 0 <= i < |NOTE_NAMES| && NOTE_NAMES[i] == name;
  }

  lemma DivModUnique(n: int, q: int, r: int)
    requires 0 <= r < 12
    ensures n == q * 12 + r <==> n / 12 == q && n % 12 == r
  {
  }

  /** Decoding the number of a name in an octave gives back that name followed
      by that octave. */
  lemma NoteNameRoundTrip(name: string, octave: int)
    requires name in NOTE_NAMES
    ensures NoteNumberToName(NoteNameToNumber(name, octave).value) == name + Text.IntToString(octave)
  {
    var i := NoteNameIndex(name);
    NoteNameToNumberDivMod(i, octave);
  }

  /** Every MIDI number is recovered from its name and octave. */
  lemma NoteNumberRoundTrip(n: int)
    ensures NoteNameToNumber(NOTE_NAMES[n % 12], n / 12 - 1) == Some(n)
  {
    var i, octave := n % 12, n / 12 - 1;
    assert (octave + 1) * 12 + i == n by {
      DivModUnique(n, n / 12, n % 12);
    }
    NoteNameToNumberAt(i, octave);
  }

  /** Distinct MIDI numbers have distinct names: the name's length is read off
      the character after the letter (a '#' never starts an octave). */
  lemma NoteNumberToNameInjective(m: int, n: int)
    requires NoteNumberToName(m) == NoteNumberToName(n)
    ensures m == n
  {
    var a, b := NOTE_NAMES[m % 12], NOTE_NAMES[n % 12];
    var om, on := Text.IntToString(m / 12 - 1), Text.IntToString(n / 12 - 1);
    var s := NoteNumberToName(m);
    assert s == a + om && s == b + on;
    assert |a| == 2 <==> s[1] == '#';
    assert |b| == 2 <==> s[1] == '#';
    assert |a| == |b|;
    assert a == s[..|a|] && om == s[|a|..];
    assert b == s[..|b|] && on == s[|b|..];
    Text.IntToStringInjective(m / 12 - 1, n / 12 - 1);
    NoteNamesDistinct();
  }

  /** Every interval spans at most an octave; the common ones are a fifth, a
      major third, a fourth and a major second. */
  lemma IntervalsWithinOctave()
    ensures forall name :: name in INTERVALS ==> 0 <= INTERVALS[name] <= 12
    ensures forall name :: name in COMMON_INTERVALS ==> name in INTERVALS && 2 <= INTERVALS[name] <= 7
    ensures seq(|COMMON_INTERVALS|, i requires 0 <= i < |COMMON_INTERVALS| => INTERVALS[COMMON_INTERVALS[i]]) == [7, 4, 5, 2]
  {
  }

  // ---------------------------------------------------------------------------
  // Drill state

  /** The text shown after an evaluation, reduced to which branch produced it
      and the values the message quotes. */
  datatype Feedback =
    | NoFeedback
    | Correct(played: seq<string>)
    | NoNotesPlayed
    | WrongNumberOfNotes(expectedCount: nat, gotCount: nat)
    | WrongNotes(expectedNames: seq<string>, gotNames: seq<string>)

  datatype DrillState = DrillState(
    currentDrill: string,
    prompt: string,
    expectedNotes: seq<int>,
    userAnswer: seq<int>,
    score: int,
    streak: int,
    feedback: Feedback,
    isComplete: bool,
    sessionId: string)

  function InitialState(sessionId: string): DrillState {
    DrillState("", "", [], [], 0, 0, NoFeedback, false, sessionId)
  }

  /** Python's `set(xs)`. */
  function Distinct(xs: seq<int>): set<int> {
    set x | x in xs
  }

  function Names(ns: seq<int>): seq<string> {
    seq(|ns|, i requires 0 <= i < |ns| => NoteNumberToName(ns[i]))
  }

  /** Root and target of an interval, moved down so that the target is at
      most C7 when it would lie above. */
  function ChooseNotes(root: int, semitones: int): (notes: (int, int))
    ensures notes.1 - notes.0 == semitones
    ensures notes.1 <= HIGHEST_TARGET
    ensures root + semitones <= HIGHEST_TARGET ==> notes.0 == root
    ensures root + semitones > HIGHEST_TARGET ==> notes == (HIGHEST_TARGET - semitones, HIGHEST_TARGET)
  {
    var target := root + semitones;
    if target > HIGHEST_TARGET then
      var root' := HIGHEST_TARGET - semitones;
      (root', root' + semitones)
    else (root, target)
  }

  /** A new round: prompt for `intervalName` from `root`, both drawn at random
      by the caller. */
  function GeneratePrompt(state: DrillState, intervalName: string, root: int): DrillState
    requires intervalName in COMMON_INTERVALS
    requires LOWEST_ROOT <= root <= HIGHEST_ROOT
  {
    IntervalsWithinOctave();
    var semitones := INTERVALS[intervalName];
    var (root', target) := ChooseNotes(root, semitones);
    state.(
      currentDrill := "interval",
      prompt := "Play a " + intervalName + " starting from " + NoteNumberToName(root'),
      expectedNotes := [root', target],
      userAnswer := [],
      feedback := NoFeedback,
      isComplete := false)
  }

  /** Scores the answer in `state.userAnswer` against the expected notes,
      compared as sets. */
  function EvaluateAnswer(state: DrillState): DrillState {
    var expected := Distinct(state.expectedNotes);
    var userAnswer := Distinct(state.userAnswer);
    var evaluated :=
      if userAnswer == expected then
        state.(feedback := Correct(Names(state.expectedNotes)),
               score := state.score + POINTS_PER_CORRECT,
               streak := state.streak + 1)
      else if |userAnswer| == 0 then
        state.(feedback := NoNotesPlayed)
      else if |userAnswer| != |expected| then
        state.(feedback := WrongNumberOfNotes(|expected|, |userAnswer|), streak := 0)
      else
        state.(feedback := WrongNotes(Names(state.expectedNotes), Names(state.userAnswer)), streak := 0);
    evaluated.(isComplete := true)
  }

  // ---------------------------------------------------------------------------
  // Properties of a round

  lemma DistinctEmpty(xs: seq<int>)
    ensures |Distinct(xs)| == 0 <==> xs == []
  {
    if xs != [] {
      assert xs[0] in Distinct(xs);
    }
  }

  /** The prompt asks for the chosen interval above the root: two distinct
      notes, the target at most C7 (the clamp never moves a drawn root, since
      84 + 7 < 96). The answer, feedback and completion flag are reset; score,
      streak and session are kept. */
  lemma GeneratePromptCorrect(state: DrillState, intervalName: string, root: int)
    requires intervalName in COMMON_INTERVALS
    requires LOWEST_ROOT <= root <= HIGHEST_ROOT
    ensures var r := GeneratePrompt(state, intervalName, root);
      && intervalName in INTERVALS
      && r.expectedNotes == [root, root + INTERVALS[intervalName]]
      && r.expectedNotes[1] <= HIGHEST_TARGET
      && |Distinct(r.expectedNotes)| == 2
      && r.prompt == "Play a " + intervalName + " starting from " + NoteNumberToName(root)
      && r.currentDrill == "interval"
      && r.userAnswer == [] && r.feedback == NoFeedback && !r.isComplete
      && r.score == state.score && r.streak == state.streak && r.sessionId == state.sessionId
  {
    IntervalsWithinOctave();
    var target := root + INTERVALS[intervalName];
    assert Distinct([root, target]) == {root, target};
  }

  /** The four outcomes of an evaluation. An answer is correct exactly when it
      holds the same notes as expected, ignoring order and repetition, and
      scores 10 and extends the streak. An empty answer (to a non-empty
      expectation) changes neither score nor streak. Otherwise the answer is
      wrong, either in its number of distinct notes or in the notes, and the
      streak drops to 0. Score moves only on a correct answer. */
  lemma EvaluateAnswerOutcomes(state: DrillState)
    ensures var r := EvaluateAnswer(state);
      var expected, answer := Distinct(state.expectedNotes), Distinct(state.userAnswer);
      && (r.feedback.Correct? <==> answer == expected)
      && (r.feedback.Correct? ==> r.score == state.score + 10 && r.streak == state.streak + 1)
      && (r.feedback.NoNotesPlayed? <==> state.userAnswer == [] && state.expectedNotes != [])
      && (r.feedback.NoNotesPlayed? ==> r.score == state.score && r.streak == state.streak)
      && (r.feedback.WrongNumberOfNotes? <==> state.userAnswer != [] && |answer| != |expected|)
      && (r.feedback.WrongNotes? <==> state.userAnswer != [] && |answer| == |expected| && answer != expected)
      && (r.feedback.WrongNumberOfNotes? || r.feedback.WrongNotes? ==> r.score == state.score && r.streak == 0)
      && (r.feedback.Correct? || r.feedback.NoNotesPlayed? || r.feedback.WrongNumberOfNotes? || r.feedback.WrongNotes?)
  {
    DistinctEmpty(state.userAnswer);
    DistinctEmpty(state.expectedNotes);
  }

  /** Evaluation completes the round and leaves the session, prompt, expected
      notes and answer as they were. */
  lemma EvaluateAnswerFrame(state: DrillState)
    ensures var r := EvaluateAnswer(state);
      && r.isComplete
      && r.sessionId == state.sessionId && r.prompt == state.prompt && r.currentDrill == state.currentDrill
      && r.expectedNotes == state.expectedNotes && r.userAnswer == state.userAnswer
  {
  }

  /** Only the set of notes played matters to score and streak: reordering or
      repeating notes in the answer does not change the outcome. */
  lemma EvaluateAnswerSetSemantics(state: DrillState, a: seq<int>, b: seq<int>)
    requires Distinct(a) == Distinct(b)
    ensures EvaluateAnswer(state.(userAnswer := a)).score == EvaluateAnswer(state.(userAnswer := b)).score
    ensures EvaluateAnswer(state.(userAnswer := a)).streak == EvaluateAnswer(state.(userAnswer := b)).streak
  {
    DistinctEmpty(a);
    DistinctEmpty(b);
  }

  /** Score is ten points per correct answer ever given and the streak counts
      only correct answers, so the score is a multiple of ten and at least ten
      times the streak. */
  predicate ScoreInvariant(s: DrillState) {
    0 <= s.streak && POINTS_PER_CORRECT * s.streak <= s.score && s.score % POINTS_PER_CORRECT == 0
  }

  /** A new prompt keeps the score invariant. */
  lemma GeneratePromptPreservesScoreInvariant(state: DrillState, intervalName: string, root: int)
    requires ScoreInvariant(state)
    requires intervalName in COMMON_INTERVALS
    requires LOWEST_ROOT <= root <= HIGHEST_ROOT
    ensures ScoreInvariant(GeneratePrompt(state, intervalName, root))
  {
  }

  /** Evaluating any answer keeps the score invariant. */
  lemma EvaluateAnswerPreservesScoreInvariant(state: DrillState)
    requires ScoreInvariant(state)
    ensures ScoreInvariant(EvaluateAnswer(state))
  {
  }

  /** A full round: after a prompt, playing its two notes in either order is
      correct, while playing the root alone is a wrong number of notes. */
  lemma RoundAnswers(state: DrillState, intervalName: string, root: int)
    requires intervalName in COMMON_INTERVALS
    requires LOWEST_ROOT <= root <= HIGHEST_ROOT
    ensures var p := GeneratePrompt(state, intervalName, root);
      var target := p.expectedNotes[1];
      && EvaluateAnswer(p.(userAnswer := [root, target])).feedback.Correct?
      && EvaluateAnswer(p.(userAnswer := [target, root])).score == state.score + 10
      && EvaluateAnswer(p.(userAnswer := [root])).feedback == WrongNumberOfNotes(2, 1)
      && EvaluateAnswer(p.(userAnswer := [root])).streak == 0
  {
    GeneratePromptCorrect(state, intervalName, root);
    var p := GeneratePrompt(state, intervalName, root);
    var target := p.expectedNotes[1];
    assert Distinct([root, target]) == Distinct([target, root]) == {root, target};
    assert Distinct([root]) == {root};
  }
}
