/** The drill session object: one drill state that starting a drill and
    answering it replace. */
module DrillGraph {
  import opened Drill
  import Text

  /** Range of the random session number. */
  const LOWEST_SESSION: int := 1000
  const HIGHEST_SESSION: int := 9999

  /** What starting a drill reports. */
  datatype DrillPrompt = DrillPrompt(prompt: string, expectedNotes: seq<int>, score: int, streak: int)

  /** What evaluating an answer reports. */
  datatype Evaluation = Evaluation(feedback: Feedback, score: int, streak: int, isComplete: bool)

  class CadenceDrillGraph {
    var state: DrillState

    ghost predicate Valid()
      reads this
    {
      ScoreInvariant(state)
    }

    /** A new session, named after the random `sessionNumber`, with nothing
        asked, nothing answered and no score. */
    constructor (sessionNumber: int)
      requires LOWEST_SESSION <= sessionNumber <= HIGHEST_SESSION
      ensures Valid()
      ensures state == InitialState("session_" + Text.IntToString(sessionNumber))
    {
      state := InitialState("session_" + Text.IntToString(sessionNumber));
    }

    /** Replaces the state with a new prompt for `intervalName` from `root`
        (the interval and root drawn at random by the caller). */
    method StartDrill(intervalName: string, root: int) returns (result: DrillPrompt)
      requires intervalName in COMMON_INTERVALS
      requires LOWEST_ROOT <= root <= HIGHEST_ROOT
      modifies this
      ensures state == GeneratePrompt(old(state), intervalName, root)
      ensures result == DrillPrompt(state.prompt, state.expectedNotes, state.score, state.streak)
      ensures old(Valid()) ==> Valid()
    {
      if Valid() {
        GeneratePromptPreservesScoreInvariant(state, intervalName, root);
      }
      state := GeneratePrompt(state, intervalName, root);
      result := DrillPrompt(state.prompt, state.expectedNotes, state.score, state.streak);
    }

    /** Records `userAnswer` in the state, then replaces the state with its
        evaluation. */
    method EvaluateAnswer(userAnswer: seq<int>) returns (result: Evaluation)
      modifies this
      ensures state == Drill.EvaluateAnswer(old(state).(userAnswer := userAnswer))
      ensures result == Evaluation(state.feedback, state.score, state.streak, state.isComplete)
      ensures result.isComplete
      ensures old(Valid()) ==> Valid()
    {
      state := state.(userAnswer := userAnswer);
      if Valid() {
        EvaluateAnswerPreservesScoreInvariant(state);
      }
      state := Drill.EvaluateAnswer(state);
      result := Evaluation(state.feedback, state.score, state.streak, state.isComplete);
    }
  }
}
