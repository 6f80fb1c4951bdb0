/**
 * The feedback report page's logic: the two score-threshold helpers that pick
 * a text colour and a background for a percentage score, and the
 * question-by-question accordion, in which at most one question is open and
 * an open question shows its suggested answer when it has one.
 */
module FeedbackReport {
  import opened Wrappers

  // ---------------------------------------------------------------------------
  // Score bands
  // ---------------------------------------------------------------------------

  /** getScoreColor. */
  function ScoreColor(score: int): string {
    if score >= 85 then "text-success"
    else if score >= 70 then "text-primary"
    else "text-warning"
  }

  /** getScoreBg. */
  function ScoreBg(score: int): string {
    if score >= 85 then "bg-success/10"
    else if score >= 70 then "bg-primary/10"
    else "bg-warning/10"
  }

  /** The three bands both helpers distinguish, from lowest to highest. */
  datatype Band = Low | Mid | High

  function Rank(b: Band): nat {
    match b
    case Low => 0
    case Mid => 1
    case High => 2
  }

  /** The theme colour a band is drawn in. */
  function Tone(b: Band): string {
    match b
    case Low => "warning"
    case Mid => "primary"
    case High => "success"
  }

  /** The band of a score, by its lower bound: 85 and above, 70 to 84, below 70. */
  function BandOf(score: int): (b: Band)
    ensures b == High <==> 85 <= score
    ensures b == Mid <==> 70 <= score < 85
    ensures b == Low <==> score < 70
  {
    if score < 70 then Low else if score < 85 then Mid else High
  }

  /** The colour helper draws each score in the tone of its band. */
  lemma ScoreColorIsBandTone(score: int)
    ensures ScoreColor(score) == "text-" + Tone(BandOf(score))
  {
  }

  /** The background helper uses the same boundaries, so colour and background name the same band. */
  lemma ScoreBgIsBandTone(score: int)
    ensures ScoreBg(score) == "bg-" + Tone(BandOf(score)) + "/10"
  {
  }

  /** Two scores get the same colour exactly when they get the same background. */
  lemma ColorAgreesWithBackground(a: int, b: int)
    ensures ScoreColor(a) == ScoreColor(b) <==> ScoreBg(a) == ScoreBg(b)
  {
    ScoreColorIsBandTone(a);
    ScoreColorIsBandTone(b);
    ScoreBgIsBandTone(a);
    ScoreBgIsBandTone(b);
    var ta, tb := Tone(BandOf(a)), Tone(BandOf(b));
    if ScoreBg(a) == ScoreBg(b) {
      assert ta == ("bg-" + ta + "/10")[3..|ta| + 3];
      assert tb == ("bg-" + tb + "/10")[3..|tb| + 3];
    }
  }

  /** A higher score never falls in a lower band. */
  lemma BandMonotone(a: int, b: int)
    requires a <= b
    ensures Rank(BandOf(a)) <= Rank(BandOf(b))
  {
  }

  // ---------------------------------------------------------------------------
  // The accordion
  // ---------------------------------------------------------------------------

  predicate IsOpen(expanded: Option<nat>, index: nat) {
    expanded == Some(index)
  }

  /** The header click: closes question i if it is the open one, otherwise opens exactly i. */
  function Toggled(expanded: Option<nat>, i: nat): (r: Option<nat>)
    ensures IsOpen(expanded, i) ==> r == None
    ensures !IsOpen(expanded, i) ==> IsOpen(r, i)
    ensures forall j :: IsOpen(r, j) ==> j == i
  {
    if expanded == Some(i) then None else Some(i)
  }

  /** Clicking the same header twice from any state where it is closed closes everything. */
  lemma ToggleTwiceCloses(expanded: Option<nat>, i: nat)
    requires !IsOpen(expanded, i)
    ensures Toggled(Toggled(expanded, i), i) == None
  {
  }

  /** From an open question, a second click on it reopens it: two clicks restore that state. */
  lemma ToggleTwiceRestoresOpen(i: nat)
    ensures Toggled(Toggled(Some(i), i), i) == Some(i)
  {
  }

  /** A question's suggested answer: the source's `null` is None. */
  datatype ReportQuestion = ReportQuestion(text: string, score: int, feedback: string, suggestedAnswer: Option<string>)

  /** The suggested-answer box renders for the open question when its answer is truthy. */
  predicate SuggestedAnswerShown(expanded: Option<nat>, index: nat, q: ReportQuestion) {
    IsOpen(expanded, index) && q.suggestedAnswer.Some? && q.suggestedAnswer.value != ""
  }

  /**
   * A suggested answer shows only under the open question, never for a question
   * without one, and always for the open question with a non-empty one.
   */
  lemma SuggestedAnswerVisibility(expanded: Option<nat>, index: nat, q: ReportQuestion)
    ensures SuggestedAnswerShown(expanded, index, q) ==> expanded == Some(index)
    ensures q.suggestedAnswer == None ==> !SuggestedAnswerShown(expanded, index, q)
    ensures expanded == Some(index) && q.suggestedAnswer.Some? && q.suggestedAnswer.value != "" ==>
      SuggestedAnswerShown(expanded, index, q)
  {
  }

  /** The page's one piece of state. */
  class ReportView {
    var expandedQuestion: Option<nat>

    /** The first question starts open. */
    constructor ()
      ensures expandedQuestion == Some(0)
    {
      expandedQuestion := Some(0);
    }

    method ToggleQuestion(i: nat)
      modifies this
      ensures expandedQuestion == Toggled(old(expandedQuestion), i)
    {
      if expandedQuestion == Some(i) {
        expandedQuestion := None;
      } else {
        expandedQuestion := Some(i);
      }
    }
  }

  /** Clicking question 2 on a fresh page opens it and closes question 0; clicking it again leaves nothing open. */
  method OpenThenClose() returns (afterFirst: Option<nat>, afterSecond: Option<nat>)
    ensures afterFirst == Some(2) && afterSecond == None
  {
    var view := new ReportView();
    view.ToggleQuestion(2);
    afterFirst := view.expandedQuestion;
    view.ToggleQuestion(2);
    afterSecond := view.expandedQuestion;
  }
}
