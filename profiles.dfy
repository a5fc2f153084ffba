/**
 * Classification of a score into one of three profiles
 * (app.py: `interpret_score`) and the fixed description of each profile
 * (app.py: `PROFILE_TEXT`).
 */
module Profiles {

  /** The three profiles, ordered from the lowest scores to the highest. */
  datatype Profile = SlowProcessor | Mellemprofil | HSP {

    /** The label `interpret_score` returns, which is also the key of `PROFILE_TEXT`. */
    function Name(): string {
      match this
      case SlowProcessor => "Slow Processor"
      case Mellemprofil => "Mellemprofil"
      case HSP => "HSP"
    }

    /** Position in the order Slow Processor < Mellemprofil < HSP. */
    function Rank(): nat {
      match this
      case SlowProcessor => 0
      case Mellemprofil => 1
      case HSP => 2
    }
  }

  /** Highest score classified as Slow Processor. */
  const SlowUpper: int := 26

  /** Highest score classified as Mellemprofil. */
  const MixedUpper: int := 53

  /** Number of description lines per profile. */
  const LinesPerProfile: nat := 6

  /**
   * `interpret_score`: defined for every integer, each profile owning
   * exactly one band of scores.
   */
  function InterpretScore(score: int): (p: Profile)
    ensures p == SlowProcessor <==> score <= SlowUpper
    ensures p == Mellemprofil <==> SlowUpper < score <= MixedUpper
    ensures p == HSP <==> MixedUpper < score
  {
    if score <= 26 then SlowProcessor
    else if score <= 53 then Mellemprofil
    else HSP
  }

  /**
   * `PROFILE_TEXT`, keyed by profile label. The sentences themselves are
   * represented by placeholders; only their number and order matter here.
   */
  const ProfileText: map<string, seq<string>> := map[
    "HSP" := ["HSP 1", "HSP 2", "HSP 3", "HSP 4", "HSP 5", "HSP 6"],
    "Slow Processor" := ["Slow Processor 1", "Slow Processor 2", "Slow Processor 3",
                         "Slow Processor 4", "Slow Processor 5", "Slow Processor 6"],
    "Mellemprofil" := ["Mellemprofil 1", "Mellemprofil 2", "Mellemprofil 3",
                       "Mellemprofil 4", "Mellemprofil 5", "Mellemprofil 6"]
  ]

  /**
   * `PROFILE_TEXT[profile]`, the lookup done on screen and in the PDF:
   * every profile's label is a key, and its entry has six lines.
   */
  function Description(p: Profile): (lines: seq<string>)
    ensures p.Name() in ProfileText
    ensures |lines| == LinesPerProfile
  {
    ProfileText[p.Name()]
  }

  /**
   * The table has exactly the three labels as keys, and distinct profiles
   * have distinct labels, so a lookup by label is a lookup by profile.
   */
  lemma ProfileTextKeys()
    ensures ProfileText.Keys == {SlowProcessor.Name(), Mellemprofil.Name(), HSP.Name()}
    ensures forall p: Profile, q: Profile :: p.Name() == q.Name() ==> p == q
  {
  }

  /** Distinct profiles are described differently. */
  lemma DescriptionsDiffer(p: Profile, q: Profile)
    requires p != q
    ensures Description(p) != Description(q)
  {
  }

  /** A higher score never yields a lower profile, and vice versa. */
  lemma InterpretMonotone(a: int, b: int)
    ensures a <= b ==> InterpretScore(a).Rank() <= InterpretScore(b).Rank()
    ensures InterpretScore(a).Rank() < InterpretScore(b).Rank() ==> a < b
  {
  }

  /** The exact boundaries, and every profile reached by some score in [0, 80]. */
  lemma InterpretBoundaries()
    ensures InterpretScore(0) == SlowProcessor
    ensures InterpretScore(26) == SlowProcessor
    ensures InterpretScore(27) == Mellemprofil
    ensures InterpretScore(53) == Mellemprofil
    ensures InterpretScore(54) == HSP
    ensures InterpretScore(80) == HSP
  {
  }
}
