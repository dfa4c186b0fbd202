/**
 The check-in evaluator of the intervention engine: the logic gate that
 decides whether a daily check-in passes, and the reason attached to a
 check-in that fails. Both are pure functions over the submitted values.
 */
module Evaluator {

  /** A quiz score must be strictly above this to pass. */
  const PassingScore: int := 7
  /** Focus minutes must be strictly above this to pass. */
  const PassingFocus: int := 60

  /** The accepted range of a quiz score, both ends included. */
  const MinScore: int := 0
  const MaxScore: int := 10

  const TabSwitchReason: string := "Tab switching detected during focus session - automatic failure"
  const BothBelowReason: string := "Both quiz score and focus time below threshold"
  const ScoreBelowReason: string := "Quiz score below threshold"
  const FocusBelowReason: string := "Focus time below threshold"

  /** The success criterion: a good quiz, a long enough session and no tab switch. */
  predicate MeetsThreshold(quizScore: int, focusMinutes: int, tabSwitched: bool)
    ensures tabSwitched ==> !MeetsThreshold(quizScore, focusMinutes, tabSwitched)
    ensures quizScore <= PassingScore || focusMinutes <= PassingFocus ==> !MeetsThreshold(quizScore, focusMinutes, tabSwitched)
  {
    quizScore > PassingScore && focusMinutes > PassingFocus && !tabSwitched
  }

  /**
   The reason recorded on the intervention a failed check-in opens. The
   branches are tried in priority order; the contract states, for each of
   the four texts, exactly which failing check-ins receive it, so that the
   last text is seen to be reachable only with a passing score.
   */
  function FailureReason(quizScore: int, focusMinutes: int, tabSwitched: bool): (r: string)
    requires !MeetsThreshold(quizScore, focusMinutes, tabSwitched)
    ensures r != ""
    ensures r == TabSwitchReason <==> tabSwitched
    ensures r == BothBelowReason <==> !tabSwitched && quizScore <= PassingScore && focusMinutes <= PassingFocus
    ensures r == ScoreBelowReason <==> !tabSwitched && quizScore <= PassingScore && focusMinutes > PassingFocus
    ensures r == FocusBelowReason <==> !tabSwitched && quizScore > PassingScore && focusMinutes <= PassingFocus
  {
    if tabSwitched then TabSwitchReason
    else if quizScore <= PassingScore && focusMinutes <= PassingFocus then BothBelowReason
    else if quizScore <= PassingScore then ScoreBelowReason
    else FocusBelowReason
  }

  /** The verdict in whole numbers: a score of at least 8, at least 61 minutes, no tab switch. */
  lemma VerdictExact(quizScore: int, focusMinutes: int, tabSwitched: bool)
    ensures MeetsThreshold(quizScore, focusMinutes, tabSwitched)
            <==> quizScore >= 8 && focusMinutes >= 61 && !tabSwitched
  {
  }

  /** The boundary values fail, and a tab switch overrides perfect metrics. */
  lemma VerdictBoundaries()
    ensures !MeetsThreshold(7, 100, false) && FailureReason(7, 100, false) == ScoreBelowReason
    ensures !MeetsThreshold(9, 60, false) && FailureReason(9, 60, false) == FocusBelowReason
    ensures !MeetsThreshold(10, 120, true) && FailureReason(10, 120, true) == TabSwitchReason
    ensures !MeetsThreshold(7, 60, false) && FailureReason(7, 60, false) == BothBelowReason
    ensures MeetsThreshold(8, 61, false)
  {
  }

  /** Raising the score or the focus time never turns a pass into a failure. */
  lemma VerdictMonotone(q: int, f: int, q': int, f': int, tabSwitched: bool)
    requires MeetsThreshold(q, f, tabSwitched) && q <= q' && f <= f'
    ensures MeetsThreshold(q', f', tabSwitched)
  {
  }
}
