/**
 * The symptom urgency questionnaire (app/urgency-check.tsx): eight weighted
 * yes/no questions asked one at a time, a score that sums the weights of the
 * "yes" answers, and four ordered tiers chosen by the thresholds 12, 8 and 4.
 */
module Urgency {

  /** A question of the questionnaire; its text and icon are display-only. */
  datatype Question = Question(id: nat, urgencyWeight: nat)

  /** The fixed questionnaire, in the order it is presented. */
  const Questions: seq<Question> := [
    Question(1, 3), Question(2, 2), Question(3, 4), Question(4, 3),
    Question(5, 2), Question(6, 3), Question(7, 4), Question(8, 2)
  ]

  /** The maximum shown beside the score on the result screen. */
  const DisplayedMaximum: nat := |Questions| * 4

  /** Answers keyed by question id; a missing id reads as "not answered yes". */
  type Answers = map<nat, bool>

  /** The four urgency tiers, from least to most urgent. */
  datatype Tier = Low | Medium | High | Urgent

  function Rank(t: Tier): nat
  {
    match t
    case Low => 0
    case Medium => 1
    case High => 2
    case Urgent => 3
  }

  predicate AnsweredYes(answers: Answers, id: nat)
  {
    id in answers && answers[id]
  }

  /** What one question adds to the score. */
  function Contribution(q: Question, answers: Answers): nat
  {
    if AnsweredYes(answers, q.id) then q.urgencyWeight else 0
  }

  /** Reference definition of the score: the weights of the questions answered yes. */
  function Score(qs: seq<Question>, answers: Answers): nat
  {
    if qs == [] then 0 else Score(qs[..|qs| - 1], answers) + Contribution(qs[|qs| - 1], answers)
  }

  /** The sum of all weights of a list of questions. */
  function TotalWeight(qs: seq<Question>): nat
  {
    if qs == [] then 0 else TotalWeight(qs[..|qs| - 1]) + qs[|qs| - 1].urgencyWeight
  }

  /** The threshold cascade of getUrgencyLevel, tested highest first. */
  function UrgencyLevel(score: int): Tier
  {
    if score >= 12 then Urgent
    else if score >= 8 then High
    else if score >= 4 then Medium
    else Low
  }

  /** The scoring loop run when the analysis delay expires. */
  method ScoreAnswers(finalAnswers: Answers) returns (score: nat)
    ensures score == Score(Questions, finalAnswers)
  {
    score := 0;
    var i := 0;
    while i < |Questions|
      invariant 0 <= i <= |Questions|
      invariant score == Score(Questions[..i], finalAnswers)
    {
      var question := Questions[i];
      assert Questions[..i + 1][..i] == Questions[..i];
      if question.id in finalAnswers && finalAnswers[question.id] {
        score := score + question.urgencyWeight;
      }
      i := i + 1;
    }
    assert Questions[..|Questions|] == Questions;
  }

  // ---------------------------------------------------------------------------
  // Properties of the score
  // ---------------------------------------------------------------------------

  /** Question ids that are answered yes in `a` are answered yes in `b`. */
  predicate AtLeastAsManyYes(qs: seq<Question>, a: Answers, b: Answers)
  {
    forall k :: 0 <= k < |qs| ==> AnsweredYes(a, qs[k].id) ==> AnsweredYes(b, qs[k].id)
  }

  /** Answering more questions yes never lowers the score. */
  lemma {:induction false} ScoreMonotone(qs: seq<Question>, a: Answers, b: Answers)
    requires AtLeastAsManyYes(qs, a, b)
    ensures Score(qs, a) <= Score(qs, b)
  {
    if qs != [] {
      var init := qs[..|qs| - 1];
      assert AtLeastAsManyYes(init, a, b) by {
        forall k | 0 <= k < |init| ensures AnsweredYes(a, init[k].id) ==> AnsweredYes(b, init[k].id) {
          assert init[k] == qs[k];
        }
      }
      ScoreMonotone(init, a, b);
      assert AnsweredYes(a, qs[|qs| - 1].id) ==> AnsweredYes(b, qs[|qs| - 1].id);
    }
  }

  /** Turning one answer from no (or missing) to yes never decreases the score. */
  lemma FlipToYesNeverDecreasesScore(qs: seq<Question>, answers: Answers, id: nat)
    ensures Score(qs, answers) <= Score(qs, answers[id := true])
  {
    ScoreMonotone(qs, answers, answers[id := true]);
  }

  /** ... and so never lowers the tier. */
  lemma FlipToYesNeverLowersTier(qs: seq<Question>, answers: Answers, id: nat)
    ensures Rank(UrgencyLevel(Score(qs, answers))) <= Rank(UrgencyLevel(Score(qs, answers[id := true])))
  {
    FlipToYesNeverDecreasesScore(qs, answers, id);
    LevelMonotone(Score(qs, answers), Score(qs, answers[id := true]));
  }

  /** The score lies between 0 and the sum of all weights. */
  lemma {:induction false} ScoreAtMostTotal(qs: seq<Question>, answers: Answers)
    ensures Score(qs, answers) <= TotalWeight(qs)
  {
    if qs != [] {
      ScoreAtMostTotal(qs[..|qs| - 1], answers);
    }
  }

  /** Every question answered no or left out gives score 0. */
  lemma {:induction false} AllNoScoresZero(qs: seq<Question>, answers: Answers)
    requires forall k :: 0 <= k < |qs| ==> !AnsweredYes(answers, qs[k].id)
    ensures Score(qs, answers) == 0
  {
    if qs != [] {
      var init := qs[..|qs| - 1];
      assert forall k :: 0 <= k < |init| ==> init[k] == qs[k];
      AllNoScoresZero(init, answers);
    }
  }

  /** Every question answered yes gives the sum of all weights. */
  lemma {:induction false} AllYesScoresTotal(qs: seq<Question>, answers: Answers)
    requires forall k :: 0 <= k < |qs| ==> AnsweredYes(answers, qs[k].id)
    ensures Score(qs, answers) == TotalWeight(qs)
  {
    if qs != [] {
      var init := qs[..|qs| - 1];
      assert forall k :: 0 <= k < |init| ==> init[k] == qs[k];
      AllYesScoresTotal(init, answers);
    }
  }

  /** With no weight above 4, the total weight is at most four per question. */
  lemma {:induction false} TotalWeightAtMostFourEach(qs: seq<Question>)
    requires forall k :: 0 <= k < |qs| ==> qs[k].urgencyWeight <= 4
    ensures TotalWeight(qs) <= 4 * |qs|
  {
    if qs != [] {
      var init := qs[..|qs| - 1];
      assert forall k :: 0 <= k < |init| ==> init[k] == qs[k];
      TotalWeightAtMostFourEach(init);
    }
  }

  /** Extending a prefix of questions by one adds that question's contribution. */
  lemma ScorePrefixStep(qs: seq<Question>, k: nat, answers: Answers)
    requires k < |qs|
    ensures Score(qs[..k + 1], answers) == Score(qs[..k], answers) + Contribution(qs[k], answers)
    ensures TotalWeight(qs[..k + 1]) == TotalWeight(qs[..k]) + qs[k].urgencyWeight
  {
    assert qs[..k + 1][..k] == qs[..k];
  }

  lemma QuestionsTotalWeight()
    ensures TotalWeight(Questions) == 23
  {
    var none: Answers := map[];
    ScorePrefixStep(Questions, 0, none);
    ScorePrefixStep(Questions, 1, none);
    ScorePrefixStep(Questions, 2, none);
    ScorePrefixStep(Questions, 3, none);
    ScorePrefixStep(Questions, 4, none);
    ScorePrefixStep(Questions, 5, none);
    ScorePrefixStep(Questions, 6, none);
    ScorePrefixStep(Questions, 7, none);
    assert Questions[..8] == Questions;
  }

  /** The score of the questionnaire never exceeds 23, nor the displayed maximum 32. */
  lemma ScoreWithinDisplayedMaximum(answers: Answers)
    ensures Score(Questions, answers) <= 23 <= DisplayedMaximum
  {
    ScoreAtMostTotal(Questions, answers);
    QuestionsTotalWeight();
    TotalWeightAtMostFourEach(Questions);
  }

  /** All answers no: score 0 and tier Low. */
  lemma AllNoIsLow(answers: Answers)
    requires forall k :: 0 <= k < |Questions| ==> !AnsweredYes(answers, Questions[k].id)
    ensures Score(Questions, answers) == 0 && UrgencyLevel(Score(Questions, answers)) == Low
  {
    AllNoScoresZero(Questions, answers);
  }

  /** All answers yes: score 23 and tier Urgent. */
  lemma AllYesIsUrgent(answers: Answers)
    requires forall k :: 0 <= k < |Questions| ==> AnsweredYes(answers, Questions[k].id)
    ensures Score(Questions, answers) == 23 && UrgencyLevel(Score(Questions, answers)) == Urgent
  {
    AllYesScoresTotal(Questions, answers);
    QuestionsTotalWeight();
  }

  /** Gum bleeding and tooth pain answered yes, everything else no: 3 + 4 = 7, tier Medium. */
  lemma BleedingAndPainIsMedium()
    ensures var answers := map[1 := true, 2 := false, 3 := true, 4 := false,
                               5 := false, 6 := false, 7 := false, 8 := false];
            Score(Questions, answers) == 7 && UrgencyLevel(7) == Medium
  {
    var answers := map[1 := true, 2 := false, 3 := true, 4 := false,
                       5 := false, 6 := false, 7 := false, 8 := false];
    ScorePrefixStep(Questions, 0, answers);
    ScorePrefixStep(Questions, 1, answers);
    ScorePrefixStep(Questions, 2, answers);
    ScorePrefixStep(Questions, 3, answers);
    ScorePrefixStep(Questions, 4, answers);
    ScorePrefixStep(Questions, 5, answers);
    ScorePrefixStep(Questions, 6, answers);
    ScorePrefixStep(Questions, 7, answers);
    assert Questions[..8] == Questions;
  }

  // ---------------------------------------------------------------------------
  // Properties of the tiers
  // ---------------------------------------------------------------------------

  /** Each score falls in exactly one tier, delimited by the thresholds 12, 8 and 4. */
  lemma TierThresholds(score: int)
    ensures UrgencyLevel(score) == Urgent <==> score >= 12
    ensures UrgencyLevel(score) == High <==> 8 <= score < 12
    ensures UrgencyLevel(score) == Medium <==> 4 <= score < 8
    ensures UrgencyLevel(score) == Low <==> score < 4
  {
  }

  /** A higher score never gives a lower tier. */
  lemma LevelMonotone(s1: int, s2: int)
    requires s1 <= s2
    ensures Rank(UrgencyLevel(s1)) <= Rank(UrgencyLevel(s2))
  {
  }

  /** Only the current question's entry of the answer map changes. */
  lemma HandleAnswerChangesOnlyCurrentKey(before: Answers, after: Answers, cursor: nat, answer: bool)
    requires cursor < |Questions|
    requires after == before[Questions[cursor].id := answer]
    ensures forall id :: id != Questions[cursor].id ==>
              (id in after <==> id in before) && (id in before ==> after[id] == before[id])
    ensures Questions[cursor].id in after && after[Questions[cursor].id] == answer
  {
  }

  // ---------------------------------------------------------------------------
  // The screen state
  // ---------------------------------------------------------------------------

  /** The ids of the first `n` questions. */
  function AnsweredIds(n: nat): set<nat>
    requires n <= |Questions|
  {
    set k | 0 <= k < n :: Questions[k].id
  }

  /**
   * The screen's state. While `isAnalyzing` holds, the delayed scoring of the
   * answers is pending; it runs in AnalysisTimeout.
   */
  class UrgencyQuiz {
    var currentQuestion: nat
    var answers: Answers
    var showResult: bool
    var urgencyScore: nat
    var isAnalyzing: bool

    /** Answers exist exactly for the questions already asked, and a shown score is the score of the answers. */
    ghost predicate Valid()
      reads this
    {
      && currentQuestion < |Questions|
      && !(isAnalyzing && showResult)
      && (isAnalyzing || showResult ==> currentQuestion == |Questions| - 1)
      && answers.Keys == AnsweredIds(if isAnalyzing || showResult then |Questions| else currentQuestion)
      && (showResult ==> urgencyScore == Score(Questions, answers))
      && (!showResult ==> urgencyScore == 0)
    }

    /** The question screen, with its yes/no buttons, is shown. */
    predicate AskingQuestion()
      reads this
    {
      !isAnalyzing && !showResult
    }

    constructor ()
      ensures Valid() && AskingQuestion()
      ensures currentQuestion == 0 && answers == map[] && urgencyScore == 0
    {
      currentQuestion := 0;
      answers := map[];
      showResult := false;
      urgencyScore := 0;
      isAnalyzing := false;
    }

    /** Record the answer to the current question, then advance or start the analysis. */
    method HandleAnswer(answer: bool)
      requires Valid() && AskingQuestion()
      modifies this
      ensures Valid()
      ensures answers == old(answers)[Questions[old(currentQuestion)].id := answer]
      ensures forall k :: k in old(answers) && k != Questions[old(currentQuestion)].id ==>
                k in answers && answers[k] == old(answers)[k]
      ensures old(currentQuestion) < |Questions| - 1 ==>
                currentQuestion == old(currentQuestion) + 1 && AskingQuestion()
      ensures old(currentQuestion) == |Questions| - 1 ==>
                currentQuestion == old(currentQuestion) && isAnalyzing && !showResult
      ensures urgencyScore == 0
    {
      var id := Questions[currentQuestion].id;
      answers := answers[id := answer];
      assert AnsweredIds(currentQuestion + 1) == AnsweredIds(currentQuestion) + {id};
      if currentQuestion < |Questions| - 1 {
        currentQuestion := currentQuestion + 1;
      } else {
        isAnalyzing := true;
      }
    }

    /** The delayed analysis: score the complete answer set and show the result. */
    method AnalysisTimeout()
      requires Valid() && isAnalyzing
      modifies this
      ensures Valid()
      ensures urgencyScore == Score(Questions, answers) && showResult && !isAnalyzing
      ensures answers == old(answers) && currentQuestion == old(currentQuestion)
      ensures answers.Keys == AnsweredIds(|Questions|)
    {
      var score := ScoreAnswers(answers);
      urgencyScore := score;
      isAnalyzing := false;
      showResult := true;
    }

    /** The tier displayed on the result screen. */
    function GetUrgencyLevel(): (t: Tier)
      reads this
      requires Valid()
      ensures showResult ==> t == UrgencyLevel(Score(Questions, answers))
      ensures !showResult ==> t == Low
    {
      UrgencyLevel(urgencyScore)
    }

    /** The restart button, shown only on the result screen. */
    method ResetQuiz()
      requires Valid() && showResult
      modifies this
      ensures Valid() && AskingQuestion()
      ensures currentQuestion == 0 && answers == map[] && urgencyScore == 0
    {
      currentQuestion := 0;
      answers := map[];
      showResult := false;
      urgencyScore := 0;
      isAnalyzing := false;
    }
  }

  /** Answering all eight questions from a fresh quiz ends in the analysis, with every question answered. */
  method AnswerAll(quiz: UrgencyQuiz, replies: seq<bool>)
    requires quiz.Valid() && quiz.AskingQuestion() && quiz.currentQuestion == 0
    requires |replies| == |Questions|
    modifies quiz
    ensures quiz.Valid() && quiz.isAnalyzing
    ensures forall k :: 0 <= k < |Questions| ==> quiz.answers[Questions[k].id] == replies[k]
  {
    var i := 0;
    while i < |replies|
      invariant 0 <= i <= |replies|
      invariant quiz.Valid()
      invariant i < |replies| ==> quiz.AskingQuestion() && quiz.currentQuestion == i
      invariant i == |replies| ==> quiz.isAnalyzing
      invariant forall k :: 0 <= k < i ==> Questions[k].id in quiz.answers && quiz.answers[Questions[k].id] == replies[k]
    {
      quiz.HandleAnswer(replies[i]);
      i := i + 1;
    }
  }
}
