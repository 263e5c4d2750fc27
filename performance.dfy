/**
 * The interview page's performance record and the pure updates its handlers
 * apply to it: the facial and speech updates with their smoothed derived
 * scores, the content-relevance seed and step, and the overall mean.
 */
module Performance {
  import opened Common

  datatype Record = Record(
    eyeContact: real,
    facialExpressions: real,
    speechClarity: real,
    confidence: real,
    contentRelevance: real,
    bodyLanguage: real,
    emotionalIntelligence: real,
    overallScore: real)

  /** The record the page starts with: every score 0. */
  const Initial := Record(0.0, 0.0, 0.0, 0.0, 0.0, 0.0, 0.0, 0.0)

  /** The seven sub-scores in key order; the overall score is not one of them. */
  function SubScores(p: Record): (s: seq<real>)
    ensures |s| == 7
    ensures s[0] == p.eyeContact && s[1] == p.facialExpressions && s[2] == p.speechClarity
    ensures s[3] == p.confidence && s[4] == p.contentRelevance && s[5] == p.bodyLanguage
    ensures s[6] == p.emotionalIntelligence
  {
    [p.eyeContact, p.facialExpressions, p.speechClarity, p.confidence,
     p.contentRelevance, p.bodyLanguage, p.emotionalIntelligence]
  }

  predicate SubScoresInUnit(p: Record) {
    InUnit(p.eyeContact) && InUnit(p.facialExpressions) && InUnit(p.speechClarity) &&
    InUnit(p.confidence) && InUnit(p.contentRelevance) && InUnit(p.bodyLanguage) &&
    InUnit(p.emotionalIntelligence)
  }

  /** Every score, the overall one included, lies in [0, 1]. */
  predicate AllInUnit(p: Record) {
    SubScoresInUnit(p) && InUnit(p.overallScore)
  }

  // ------------------------------------------------------------ the mean

  /** `reduce((sum, v) => sum + v, 0)`: a left fold, so the last element is added last. */
  function Sum(s: seq<real>): real {
    if s == [] then 0.0 else Sum(s[..|s| - 1]) + s[|s| - 1]
  }

  lemma {:induction false} SumBounds(s: seq<real>, lo: real, hi: real)
    requires forall i | 0 <= i < |s| :: lo <= s[i] <= hi
    ensures |s| as real * lo <= Sum(s) <= |s| as real * hi
  {
    if s != [] {
      SumBounds(s[..|s| - 1], lo, hi);
    }
  }

  function Mean(s: seq<real>): (m: real)
    requires |s| > 0
    ensures (forall i | 0 <= i < |s| :: 0.0 <= s[i] <= 1.0) ==> InUnit(m)
  {
    if forall i | 0 <= i < |s| :: 0.0 <= s[i] <= 1.0 then
      SumBounds(s, 0.0, 1.0);
      Sum(s) / |s| as real
    else
      Sum(s) / |s| as real
  }

  /** `generateFinalReport`: the mean of the seven sub-scores. */
  function OverallScore(p: Record): (overall: real)
    ensures SubScoresInUnit(p) ==> InUnit(overall)
  {
    Mean(SubScores(p))
  }

  lemma SumOfSeven(s: seq<real>)
    requires |s| == 7
    ensures Sum(s) == s[0] + s[1] + s[2] + s[3] + s[4] + s[5] + s[6]
  {
    assert s[..6][..5] == s[..5] && s[..5][..4] == s[..4] && s[..4][..3] == s[..3];
    assert s[..3][..2] == s[..2] && s[..2][..1] == s[..1] && s[..1][..0] == [];
    assert Sum(s[..1]) == s[0];
    assert Sum(s[..2]) == s[0] + s[1];
    assert Sum(s[..3]) == s[0] + s[1] + s[2];
    assert Sum(s[..4]) == s[0] + s[1] + s[2] + s[3];
    assert Sum(s[..5]) == s[0] + s[1] + s[2] + s[3] + s[4];
    assert Sum(s[..6]) == s[0] + s[1] + s[2] + s[3] + s[4] + s[5];
  }

  /** Seven equal sub-scores have that score as their mean. */
  lemma OverallOfEqualScores(p: Record, v: real)
    requires forall i | 0 <= i < 7 :: SubScores(p)[i] == v
    ensures OverallScore(p) == v
  {
    SumOfSeven(SubScores(p));
  }

  /** Alternating full and empty sub-scores, starting full, average 4/7. */
  lemma OverallOfAlternatingScores(p: Record)
    requires SubScores(p) == [1.0, 0.0, 1.0, 0.0, 1.0, 0.0, 1.0]
    ensures OverallScore(p) == 4.0 / 7.0
  {
    SumOfSeven(SubScores(p));
  }

  /** The overall score a record already holds plays no part in its recomputation. */
  lemma OverallScoreIgnoresOverall(p: Record, x: real)
    ensures OverallScore(p.(overallScore := x)) == OverallScore(p)
  {
    assert SubScores(p.(overallScore := x)) == SubScores(p);
  }

  /** The record with its overall score recomputed. */
  function WithOverall(p: Record): (q: Record)
    ensures q.overallScore == OverallScore(p)
    ensures SubScores(q) == SubScores(p)
    ensures SubScoresInUnit(p) ==> AllInUnit(q)
  {
    p.(overallScore := OverallScore(p))
  }

  // ------------------------------------------------------ handler updates

  /**
   * `handleFacialDataUpdate`: the two facial scores are replaced and body
   * language is smoothed towards the new expression score.
   */
  function WithFacial(p: Record, eyeContact: real, facialExpressions: real): (q: Record)
    ensures q.eyeContact == eyeContact && q.facialExpressions == facialExpressions
    ensures q.bodyLanguage - p.bodyLanguage == 0.3 * (facialExpressions - p.bodyLanguage)
    ensures q.speechClarity == p.speechClarity && q.confidence == p.confidence
    ensures q.contentRelevance == p.contentRelevance
    ensures q.emotionalIntelligence == p.emotionalIntelligence && q.overallScore == p.overallScore
    ensures AllInUnit(p) && InUnit(eyeContact) && InUnit(facialExpressions) ==> AllInUnit(q)
  {
    p.(eyeContact := eyeContact,
       facialExpressions := facialExpressions,
       bodyLanguage := p.bodyLanguage * 0.7 + facialExpressions * 0.3)
  }

  /**
   * `handleSpeechDataUpdate`: the two speech scores are replaced and
   * emotional intelligence is smoothed towards the new confidence and the
   * expression score already held.
   */
  function WithSpeech(p: Record, clarity: real, confidence: real): (q: Record)
    ensures q.speechClarity == clarity && q.confidence == confidence
    ensures q.emotionalIntelligence ==
      p.emotionalIntelligence + 0.2 * (confidence - p.emotionalIntelligence)
                              + 0.2 * (p.facialExpressions - p.emotionalIntelligence)
    ensures q.eyeContact == p.eyeContact && q.facialExpressions == p.facialExpressions
    ensures q.contentRelevance == p.contentRelevance
    ensures q.bodyLanguage == p.bodyLanguage && q.overallScore == p.overallScore
    ensures AllInUnit(p) && InUnit(clarity) && InUnit(confidence) ==> AllInUnit(q)
  {
    var ei := p.emotionalIntelligence * 0.6 + confidence * 0.2 + p.facialExpressions * 0.2;
    p.(speechClarity := clarity, confidence := confidence, emotionalIntelligence := ei)
  }

  /** The speech update reads the expression score the record holds, not a newer one. */
  lemma SpeechUsesHeldExpressionScore(p: Record, f: real, clarity: real, confidence: real)
    ensures WithSpeech(WithFacial(p, p.eyeContact, f), clarity, confidence).emotionalIntelligence
            - WithSpeech(p, clarity, confidence).emotionalIntelligence
            == 0.2 * (f - p.facialExpressions)
  {
  }

  /** With an expression score of 0, speech updates keep emotional intelligence at most 0.5. */
  lemma SpeechWithoutFacialKeepsEmotionalIntelligenceLow(p: Record, clarity: real, confidence: real)
    requires p.facialExpressions == 0.0 && p.emotionalIntelligence <= 0.5 && InUnit(confidence)
    ensures WithSpeech(p, clarity, confidence).emotionalIntelligence <= 0.5
  {
  }

  /**
   * A record that never received a facial update (eye contact, expressions and
   * body language still 0), with a clarity of at most 0.79 and emotional
   * intelligence at most 0.5, averages to at most 3.29 / 7.
   */
  lemma OverallWithoutFacialUpdates(p: Record)
    requires SubScoresInUnit(p)
    requires p.eyeContact == 0.0 && p.facialExpressions == 0.0 && p.bodyLanguage == 0.0
    requires p.speechClarity <= 0.79 && p.emotionalIntelligence <= 0.5
    ensures OverallScore(p) <= 3.29 / 7.0
  {
    SumOfSeven(SubScores(p));
  }

  /** The content-relevance step of a non-final `nextQuestion`, capped at 1. */
  function Advanced(p: Record): (q: Record)
    ensures q.contentRelevance <= 1.0
    ensures p.contentRelevance <= 0.9 ==> q.contentRelevance == p.contentRelevance + 0.1
    ensures p.contentRelevance >= 0.9 ==> q.contentRelevance == 1.0
    ensures p.contentRelevance <= 1.0 ==> p.contentRelevance <= q.contentRelevance
    ensures q == p.(contentRelevance := q.contentRelevance)
    ensures AllInUnit(p) ==> AllInUnit(q)
  {
    p.(contentRelevance := Min(p.contentRelevance + 0.1, 1.0))
  }

  /** `n` non-final steps in a row. */
  function AdvancedTimes(p: Record, n: nat): Record {
    if n == 0 then p else Advanced(AdvancedTimes(p, n - 1))
  }

  /** After `n` steps the relevance has grown by a tenth per step, up to the cap. */
  lemma {:induction false} AdvancedTimesClosedForm(p: Record, n: nat)
    requires p.contentRelevance <= 1.0
    ensures AdvancedTimes(p, n).contentRelevance == Min(p.contentRelevance + 0.1 * n as real, 1.0)
    ensures AdvancedTimes(p, n) == p.(contentRelevance := AdvancedTimes(p, n).contentRelevance)
  {
    if n > 0 {
      AdvancedTimesClosedForm(p, n - 1);
    }
  }

  /** The seed of the content-relevance effect: an unset (zero) relevance becomes 0.5. */
  function Seeded(p: Record): (q: Record)
    ensures p.contentRelevance == 0.0 ==> q == p.(contentRelevance := 0.5)
    ensures p.contentRelevance != 0.0 ==> q == p
    ensures AllInUnit(p) ==> AllInUnit(q)
  {
    if p.contentRelevance == 0.0 then p.(contentRelevance := 0.5) else p
  }

  /** From the seed, five steps reach the cap and further steps keep it there. */
  lemma SeededThenFiveStepsReachCap(p: Record, n: nat)
    requires p.contentRelevance == 0.0 && n >= 5
    ensures AdvancedTimes(Seeded(p), n).contentRelevance == 1.0
  {
    AdvancedTimesClosedForm(Seeded(p), n);
  }
}
