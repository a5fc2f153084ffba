/**
 * The answer list of the questionnaire and the score derived from it
 * (app.py: `safe_answers` and `total_score`).
 *
 * An answer slot is `None` while the statement is unanswered and
 * `Some(v)` once one of the five answer buttons has been pressed, where
 * `v` is the button's position 0..4.
 */
module Scoring {
  import opened Wrappers

  /** Number of statements in the questionnaire, `len(questions)`. */
  const QuestionCount: nat := 20

  /** Largest answer: the position of the last of the five answer buttons. */
  const MaxAnswer: nat := 4

  /** The maximum score, displayed as "/ 80". */
  const MaxScore: nat := 80

  type Answer = Option<int>

  /** An answer the buttons can produce: none yet, or a position 0..4. */
  predicate InRange(a: Answer) {
    a.None? || 0 <= a.value <= MaxAnswer
  }

  predicate AllInRange(s: seq<Answer>) {
    forall k :: 0 <= k < |s| ==> InRange(s[k])
  }

  /** `n` slots, every one unanswered: `[None] * n`. */
  function Unanswered(n: nat): (s: seq<Answer>)
    ensures |s| == n && AllInRange(s)
  {
    seq(n, k => None)
  }

  /** `n` slots, every one holding the answer `a`. */
  function Repeat(n: nat, a: Answer): (s: seq<Answer>)
    ensures |s| == n
    ensures InRange(a) ==> AllInRange(s)
  {
    seq(n, k => a)
  }

  /** One element of `safe_answers`: an unanswered slot counts as 0. */
  function Normalize(a: Answer): (n: int)
    ensures InRange(a) ==> 0 <= n <= MaxAnswer
    ensures a.Some? ==> n == a.value
    ensures a.None? ==> n == 0
  {
    match a
    case None => 0
    case Some(v) => v
  }

  /** `sum(safe_answers)`. */
  function Score(s: seq<Answer>): (r: int)
    ensures AllInRange(s) ==> 0 <= r <= MaxAnswer * |s|
  {
    if s == [] then 0 else Normalize(s[0]) + Score(s[1..])
  }

  /** The answer list with every unanswered slot explicitly answered 0. */
  function Filled(s: seq<Answer>): (r: seq<Answer>)
    ensures |r| == |s|
  {
    seq(|s|, k requires 0 <= k < |s| => Some(Normalize(s[k])))
  }

  /** Number of slots of `s` that hold `a` (`None` counts the unanswered ones). */
  function Count(s: seq<Answer>, a: Answer): (c: nat)
    ensures c <= |s|
  {
    if s == [] then 0 else (if s[0] == a then 1 else 0) + Count(s[1..], a)
  }

  /** The sum over a concatenation is the sum of the sums. */
  lemma {:induction false} ScoreAppend(a: seq<Answer>, b: seq<Answer>)
    ensures Score(a + b) == Score(a) + Score(b)
  {
    if a == [] {
      assert a + b == b;
    } else {
      assert (a + b)[1..] == a[1..] + b;
      ScoreAppend(a[1..], b);
    }
  }

  /** `n` copies of one answer score `n` times its normalized value. */
  lemma {:induction false} ScoreOfRepeat(n: nat, a: Answer)
    ensures Score(Repeat(n, a)) == n * Normalize(a)
  {
    if n > 0 {
      var x := Normalize(a);
      assert Repeat(n, a)[0] == a && Repeat(n, a)[1..] == Repeat(n - 1, a);
      ScoreOfRepeat(n - 1, a);
      calc {
        Score(Repeat(n, a));
        x + Score(Repeat(n - 1, a));
        x + (n - 1) * x;
        { assert (n - 1) * x + x == n * x; }
        n * x;
      }
    }
  }

  /** A freshly created or reset answer list scores 0. */
  lemma ScoreOfUnanswered(n: nat)
    ensures Score(Unanswered(n)) == 0
    ensures Count(Unanswered(n), None) == n
  {
    assert Unanswered(n) == Repeat(n, None);
    ScoreOfRepeat(n, None);
    CountOfRepeat(n, None);
  }

  lemma {:induction false} CountOfRepeat(n: nat, a: Answer)
    ensures Count(Repeat(n, a), a) == n
  {
    if n > 0 {
      assert Repeat(n, a)[1..] == Repeat(n - 1, a);
      CountOfRepeat(n - 1, a);
    }
  }

  /**
   * Treating unanswered slots as 0 is the same as answering them 0:
   * the filled list has no unanswered slot, keeps every given answer,
   * and scores exactly what the original scores.
   */
  lemma {:induction false} ScoreOfFilled(s: seq<Answer>)
    ensures Score(Filled(s)) == Score(s)
    ensures Count(Filled(s), None) == 0
    ensures forall k :: 0 <= k < |s| && s[k].Some? ==> Filled(s)[k] == s[k]
    ensures forall k :: 0 <= k < |s| && s[k].None? ==> Filled(s)[k] == Some(0)
  {
    if s != [] {
      assert Filled(s)[1..] == Filled(s[1..]);
      ScoreOfFilled(s[1..]);
    }
  }

  /**
   * Answering slot `i` with `v` changes the score by exactly the
   * difference between `v` and what the slot contributed before.
   */
  lemma {:induction false} ScoreAfterSet(s: seq<Answer>, i: nat, v: int)
    requires i < |s|
    ensures Score(s[i := Some(v)]) == Score(s) - Normalize(s[i]) + v
  {
    if i == 0 {
      assert s[i := Some(v)][1..] == s[1..];
    } else {
      assert s[i := Some(v)][1..] == s[1..][i - 1 := Some(v)];
      ScoreAfterSet(s[1..], i - 1, v);
    }
  }

  /**
   * An independent reading of the score: every answer `v` contributes `v`
   * points, so the score is the number of answers 1 plus twice the number
   * of answers 2, and so on.
   */
  lemma {:induction false} ScoreByCounts(s: seq<Answer>)
    requires AllInRange(s)
    ensures Score(s) == Count(s, Some(1)) + 2 * Count(s, Some(2))
                        + 3 * Count(s, Some(3)) + 4 * Count(s, Some(4))
  {
    if s != [] {
      var t := s[1..];
      assert AllInRange(t) by {
        forall k | 0 <= k < |t| ensures InRange(t[k]) {
          assert t[k] == s[k + 1];
        }
      }
      ScoreByCounts(t);
      assert InRange(s[0]);
    }
  }

  /** Every slot is either unanswered or holds exactly one of the five answers. */
  lemma {:induction false} CountsPartition(s: seq<Answer>)
    requires AllInRange(s)
    ensures Count(s, None) + Count(s, Some(0)) + Count(s, Some(1)) + Count(s, Some(2))
            + Count(s, Some(3)) + Count(s, Some(4)) == |s|
  {
    if s != [] {
      var t := s[1..];
      assert AllInRange(t) by {
        forall k | 0 <= k < |t| ensures InRange(t[k]) {
          assert t[k] == s[k + 1];
        }
      }
      CountsPartition(t);
      assert InRange(s[0]);
    }
  }
}
