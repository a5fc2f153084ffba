/**
 * The data the result section and the PDF report consume: the score, the
 * profile, its description lines, and the label of each statement's answer
 * (app.py: `labels`, the result section and `generate_pdf`'s content).
 */
module Report {
  import opened Wrappers
  import opened Scoring
  import opened Profiles

  /** `labels`: the caption of each answer button, indexed by answer. */
  const AnswerLabels: seq<string> := ["Aldrig", "Sjældent", "Nogle gange", "Ofte", "Altid"]

  /** There is one label per button, and no two buttons share a label. */
  lemma AnswerLabelsOnePerButton()
    ensures |AnswerLabels| == MaxAnswer + 1
    ensures forall j, k :: 0 <= j < k < |AnswerLabels| ==> AnswerLabels[j] != AnswerLabels[k]
  {
  }

  /** Position of the first occurrence of `x` in `xs`, if any. */
  function IndexOf(xs: seq<string>, x: string): (r: Option<int>)
    ensures r.None? <==> x !in xs
    ensures r.Some? ==> 0 <= r.value < |xs| && xs[r.value] == x
                        && forall k :: 0 <= k < r.value ==> xs[k] != x
  {
    if xs == [] then None
    else if xs[0] == x then Some(0)
    else match IndexOf(xs[1..], x)
      case None => None
      case Some(k) => Some(k + 1)
  }

  /**
   * `labels[safe_answers[i]]`: the label printed for one answer. The index
   * is always valid, and the label reads back as the normalized answer,
   * so an unanswered statement is reported as "Aldrig".
   */
  function AnswerLabel(a: Answer): (caption: string)
    requires InRange(a)
    ensures IndexOf(AnswerLabels, caption) == Some(Normalize(a))
  {
    AnswerLabels[Normalize(a)]
  }

  /** The output of one page run: what the screen shows and the PDF prints. */
  datatype Result = Result(score: int, profile: Profile, description: seq<string>, answerLabels: seq<string>)

  /**
   * Score, profile, description and answer labels for a complete answer
   * list (the result section and the body of `generate_pdf`).
   */
  function MakeResult(s: seq<Answer>): (r: Result)
    requires |s| == QuestionCount && AllInRange(s)
    ensures r.score == Score(s) && 0 <= r.score <= MaxScore
    ensures r.profile == InterpretScore(r.score)
    ensures r.description == Description(r.profile) && |r.description| == LinesPerProfile
    ensures |r.answerLabels| == QuestionCount
    ensures forall k :: 0 <= k < QuestionCount ==> IndexOf(AnswerLabels, r.answerLabels[k]) == Some(Normalize(s[k]))
  {
    var score := Score(s);
    var profile := InterpretScore(score);
    Result(score, profile, Description(profile),
           seq(QuestionCount, k requires 0 <= k < QuestionCount => AnswerLabel(s[k])))
  }

  /** A list with nothing answered: score 0, Slow Processor, every answer "Aldrig". */
  lemma ResultOfUnanswered()
    ensures MakeResult(Unanswered(QuestionCount)).score == 0
    ensures MakeResult(Unanswered(QuestionCount)).profile == SlowProcessor
    ensures forall k :: 0 <= k < QuestionCount ==> MakeResult(Unanswered(QuestionCount)).answerLabels[k] == "Aldrig"
  {
    ScoreOfUnanswered(QuestionCount);
  }

  /** Every statement answered "Altid": score 80, HSP and the HSP description. */
  lemma ResultOfAllAltid()
    ensures MakeResult(Repeat(QuestionCount, Some(MaxAnswer))).score == MaxScore
    ensures MakeResult(Repeat(QuestionCount, Some(MaxAnswer))).profile == HSP
    ensures MakeResult(Repeat(QuestionCount, Some(MaxAnswer))).description == ProfileText["HSP"]
  {
    ScoreOfRepeat(QuestionCount, Some(MaxAnswer));
  }

  /** Ten answers "Nogle gange" followed by ten "Sjældent": 10*2 + 10*1 = 30, Mellemprofil. */
  lemma ResultOfMixedExample()
    ensures Score(Repeat(10, Some(2)) + Repeat(10, Some(1))) == 30
    ensures InterpretScore(Score(Repeat(10, Some(2)) + Repeat(10, Some(1)))) == Mellemprofil
  {
    ScoreAppend(Repeat(10, Some(2)), Repeat(10, Some(1)));
    ScoreOfRepeat(10, Some(2));
    ScoreOfRepeat(10, Some(1));
  }
}
