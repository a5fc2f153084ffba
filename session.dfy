/**
 * The session's answer list (`st.session_state.answers`): created with
 * every statement unanswered, changed one slot at a time by the answer
 * buttons, and replaced by an unanswered list by the reset button.
 */
module Session {
  import opened Wrappers
  import opened Scoring
  import opened Profiles
  import opened Report

  class AnswerStore {
    var answers: array<Answer>

    /** One slot per statement, each unanswered or holding a button position 0..4. */
    ghost predicate Valid()
      reads this, answers
    {
      answers.Length == QuestionCount && AllInRange(answers[..])
    }

    /** First run of the page: `[None] * len(questions)`. */
    constructor ()
      ensures Valid() && fresh(answers)
      ensures answers[..] == Unanswered(QuestionCount)
      ensures Score(answers[..]) == 0 && InterpretScore(Score(answers[..])) == SlowProcessor
    {
      answers := new Answer[QuestionCount](k => None);
      new;
      assert answers[..] == Unanswered(QuestionCount);
      ScoreOfUnanswered(QuestionCount);
    }

    /**
     * `set_answer(i, val)`, called when button `val` of statement `i` is
     * pressed: slot `i` now holds `val`, every other slot is unchanged,
     * and the score moves by the difference.
     */
    method SetAnswer(i: nat, val: int)
      requires Valid()
      requires i < QuestionCount && 0 <= val <= MaxAnswer
      modifies answers
      ensures Valid()
      ensures answers[..] == old(answers[..])[i := Some(val)]
      ensures forall k :: 0 <= k < answers.Length && k != i ==> answers[k] == old(answers[k])
      ensures Score(answers[..]) == old(Score(answers[..])) - Normalize(old(answers[i])) + val
    {
      ghost var before := answers[..];
      answers[i] := Some(val);
      ScoreAfterSet(before, i, val);
    }

    /**
     * The reset button: the list is replaced by a new, unanswered one,
     * whatever it held, so resetting twice is the same as once.
     */
    method Reset()
      modifies this
      ensures Valid() && fresh(answers)
      ensures answers[..] == Unanswered(QuestionCount)
      ensures Score(answers[..]) == 0 && InterpretScore(Score(answers[..])) == SlowProcessor
    {
      answers := new Answer[QuestionCount](k => None);
      assert answers[..] == Unanswered(QuestionCount);
      ScoreOfUnanswered(QuestionCount);
    }

    /**
     * What the page shows after the answers: `total_score`, the profile
     * from `interpret_score`, its `PROFILE_TEXT` lines, and the answer
     * labels written into the PDF.
     */
    method CurrentResult() returns (r: Result)
      requires Valid()
      ensures r == MakeResult(answers[..])
      ensures r.score == Score(answers[..]) && 0 <= r.score <= MaxScore
      ensures r.profile == InterpretScore(r.score)
      ensures r.description == Description(r.profile) && |r.description| == LinesPerProfile
    {
      r := MakeResult(answers[..]);
    }
  }
}
