/**
 * The results summary: the letter grade of the overall score, the colour
 * bands of the breakdown, the improvement tips and the seven-entry
 * breakdown of the performance record.
 */
module ResultsSummary {
  import opened Common
  import opened Performance

  // ------------------------------------------------------------------ grade

  datatype Grade = APlus | A | BPlus | B | CPlus | C | D

  function GradeLabel(g: Grade): string {
    match g
    case APlus => "A+"
    case A => "A"
    case BPlus => "B+"
    case B => "B"
    case CPlus => "C+"
    case C => "C"
    case D => "D"
  }

  /** D lowest, A+ highest. */
  function Rank(g: Grade): nat {
    match g
    case D => 0
    case C => 1
    case CPlus => 2
    case B => 3
    case BPlus => 4
    case A => 5
    case APlus => 6
  }

  /** `getGrade`: a step every tenth from 0.4 up to 0.9. */
  function GetGrade(score: real): (g: Grade)
    ensures g == APlus <==> 0.9 <= score
    ensures g == A <==> 0.8 <= score < 0.9
    ensures g == BPlus <==> 0.7 <= score < 0.8
    ensures g == B <==> 0.6 <= score < 0.7
    ensures g == CPlus <==> 0.5 <= score < 0.6
    ensures g == C <==> 0.4 <= score < 0.5
    ensures g == D <==> score < 0.4
  {
    if score >= 0.9 then APlus
    else if score >= 0.8 then A
    else if score >= 0.7 then BPlus
    else if score >= 0.6 then B
    else if score >= 0.5 then CPlus
    else if score >= 0.4 then C
    else D
  }

  /** A higher score never earns a lower grade. */
  lemma GradeMonotone(a: real, b: real)
    requires a <= b
    ensures Rank(GetGrade(a)) <= Rank(GetGrade(b))
  {
  }

  /** The grade shown determines the band: no two grades share a label. */
  lemma GradeLabelsDistinct(a: Grade, b: Grade)
    ensures GradeLabel(a) == GradeLabel(b) <==> a == b
  {
  }

  // ----------------------------------------------------------------- colour

  /** `getColorClass` of the summary: red below 0.4, green from 0.7. */
  function ColorClass(value: real): (c: Colour)
    ensures c == Red <==> value < 0.4
    ensures c == Yellow <==> 0.4 <= value < 0.7
    ensures c == Green <==> 0.7 <= value
  {
    Band(value, 0.4, 0.7)
  }

  /**
   * The summary bands and the live panels' bands agree on green; they differ
   * only on [0.3, 0.4), which the summary paints red and the panels yellow.
   */
  lemma SummaryAndLiveBands(value: real)
    ensures ColorClass(value) == Green <==> LiveColorClass(value) == Green
    ensures ColorClass(value) != LiveColorClass(value) <==> 0.3 <= value < 0.4
  {
  }

  // ------------------------------------------------------------------- tips

  /** The score below which a sub-score earns a tip. */
  const TipThreshold: real := 0.6

  /** One tip per sub-score, in the order of `SubScores`. */
  const TipTexts: seq<string> := [
    "Work on maintaining consistent eye contact with the camera",
    "Try to show more engagement through your facial expressions",
    "Focus on speaking more clearly and at a moderate pace",
    "Work on projecting more confidence in your delivery",
    "Practice providing more focused and relevant answers to questions",
    "Be mindful of your posture and avoid excessive movements",
    "Practice showing more emotional intelligence and adaptability"
  ]

  const Fallback: string := "Keep practicing to maintain your excellent performance"

  /** The texts whose scores fall below the threshold, in order. */
  function WeakTips(scores: seq<real>, texts: seq<string>): (tips: seq<string>)
    requires |scores| == |texts|
    ensures |tips| <= |scores|
    ensures forall t | t in tips :: t in texts
  {
    if scores == [] then []
    else (if scores[0] < TipThreshold then [texts[0]] else []) + WeakTips(scores[1..], texts[1..])
  }

  predicate Distinct(texts: seq<string>) {
    forall i, j | 0 <= i < j < |texts| :: texts[i] != texts[j]
  }

  /** With distinct texts, a text is listed exactly when its score is below the threshold. */
  lemma {:induction false} WeakTipsMembership(scores: seq<real>, texts: seq<string>, i: nat)
    requires |scores| == |texts| && Distinct(texts) && i < |texts|
    ensures texts[i] in WeakTips(scores, texts) <==> scores[i] < TipThreshold
  {
    var rest := WeakTips(scores[1..], texts[1..]);
    assert Distinct(texts[1..]);
    if i == 0 {
      assert forall t | t in rest :: t in texts[1..];
      assert texts[0] !in texts[1..];
    } else {
      WeakTipsMembership(scores[1..], texts[1..], i - 1);
      assert texts[1..][i - 1] == texts[i];
    }
  }

  /** No tip is listed exactly when no score is below the threshold. */
  lemma {:induction false} WeakTipsEmpty(scores: seq<real>, texts: seq<string>)
    requires |scores| == |texts|
    ensures WeakTips(scores, texts) == [] <==> forall i | 0 <= i < |scores| :: scores[i] >= TipThreshold
  {
    if scores != [] {
      WeakTipsEmpty(scores[1..], texts[1..]);
      assert forall i | 1 <= i < |scores| :: scores[i] == scores[1..][i - 1];
    }
  }

  /** The tips of a prefix of the fields come before the tips of the rest. */
  lemma {:induction false} WeakTipsSplit(scores: seq<real>, texts: seq<string>, k: nat)
    requires |scores| == |texts| && k <= |scores|
    ensures WeakTips(scores, texts) ==
      WeakTips(scores[..k], texts[..k]) + WeakTips(scores[k..], texts[k..])
  {
    if k == 0 {
      assert scores[..0] == [] && scores[0..] == scores && texts[0..] == texts;
    } else {
      WeakTipsSplit(scores[1..], texts[1..], k - 1);
      assert scores[..k][1..] == scores[1..][..k - 1] && texts[..k][1..] == texts[1..][..k - 1];
      assert scores[1..][k - 1..] == scores[k..] && texts[1..][k - 1..] == texts[k..];
    }
  }

  /** The tips the summary shows: the listed ones, or the fallback when none is. */
  function Tips(p: Record): (tips: seq<string>)
    ensures 1 <= |tips| <= 7
  {
    var weak := WeakTips(SubScores(p), TipTexts);
    if |weak| > 0 then weak else [Fallback]
  }

  lemma TipTextsDistinct()
    ensures Distinct(TipTexts) && Fallback !in TipTexts
  {
  }

  /** The tip of sub-score `i` is shown exactly when that score is below 0.6. */
  lemma TipShownIffWeak(p: Record, i: nat)
    requires i < 7
    ensures TipTexts[i] in Tips(p) <==> SubScores(p)[i] < TipThreshold
  {
    TipTextsDistinct();
    WeakTipsMembership(SubScores(p), TipTexts, i);
  }

  /** The fallback is shown, alone, exactly when every sub-score reaches 0.6. */
  lemma FallbackIffNoWeakScore(p: Record)
    ensures Tips(p) == [Fallback] <==> forall i | 0 <= i < 7 :: SubScores(p)[i] >= TipThreshold
    ensures Fallback in Tips(p) ==> Tips(p) == [Fallback]
  {
    TipTextsDistinct();
    WeakTipsEmpty(SubScores(p), TipTexts);
  }

  /** The tips of the first `k` sub-scores, one field at a time. */
  function TipsUpTo(p: Record, k: nat): seq<string>
    requires k <= 7
  {
    if k == 0 then []
    else TipsUpTo(p, k - 1) + (if SubScores(p)[k - 1] < TipThreshold then [TipTexts[k - 1]] else [])
  }

  lemma {:induction false} TipsUpToIsWeakTips(p: Record, k: nat)
    requires k <= 7
    ensures TipsUpTo(p, k) == WeakTips(SubScores(p)[..k], TipTexts[..k])
  {
    if k > 0 {
      TipsUpToIsWeakTips(p, k - 1);
      StepTip(SubScores(p), TipTexts, k - 1);
    }
  }

  /** `getImprovementTips`: one `push` per sub-score below 0.6, then the fallback if none. */
  method GetImprovementTips(p: Record) returns (tips: seq<string>)
    ensures tips == Tips(p)
  {
    tips := [];
    if p.eyeContact < TipThreshold { tips := tips + [TipTexts[0]]; }
    assert tips == TipsUpTo(p, 1);
    if p.facialExpressions < TipThreshold { tips := tips + [TipTexts[1]]; }
    assert tips == TipsUpTo(p, 2);
    if p.speechClarity < TipThreshold { tips := tips + [TipTexts[2]]; }
    assert tips == TipsUpTo(p, 3);
    if p.confidence < TipThreshold { tips := tips + [TipTexts[3]]; }
    assert tips == TipsUpTo(p, 4);
    if p.contentRelevance < TipThreshold { tips := tips + [TipTexts[4]]; }
    assert tips == TipsUpTo(p, 5);
    if p.bodyLanguage < TipThreshold { tips := tips + [TipTexts[5]]; }
    assert tips == TipsUpTo(p, 6);
    if p.emotionalIntelligence < TipThreshold { tips := tips + [TipTexts[6]]; }
    assert tips == WeakTips(SubScores(p), TipTexts) by {
      assert tips == TipsUpTo(p, 7);
      TipsUpToIsWeakTips(p, 7);
      assert SubScores(p)[..7] == SubScores(p) && TipTexts[..7] == TipTexts;
    }
    if |tips| == 0 {
      tips := [Fallback];
    }
  }

  /** Extending the prefix by one field appends that field's tip, if any. */
  lemma StepTip(scores: seq<real>, texts: seq<string>, k: nat)
    requires |scores| == |texts| && k < |scores|
    ensures WeakTips(scores[..k + 1], texts[..k + 1]) ==
      WeakTips(scores[..k], texts[..k]) + (if scores[k] < TipThreshold then [texts[k]] else [])
  {
    WeakTipsSplit(scores[..k + 1], texts[..k + 1], k);
    assert scores[..k + 1][..k] == scores[..k] && texts[..k + 1][..k] == texts[..k];
    assert scores[..k + 1][k..] == [scores[k]] && texts[..k + 1][k..] == [texts[k]];
  }

  // -------------------------------------------------------------- breakdown

  datatype Metric = Metric(name: string, value: real)

  const MetricLabels: seq<string> := [
    "Eye Contact", "Facial Expressions", "Speech Clarity", "Confidence",
    "Content Relevance", "Body Language", "Emotional Intelligence"
  ]

  /** `metrics`: the seven sub-scores under their labels, the overall score left out. */
  function Metrics(p: Record): (m: seq<Metric>)
    ensures |m| == 7
    ensures forall i | 0 <= i < 7 :: m[i] == Metric(MetricLabels[i], SubScores(p)[i])
  {
    seq(7, i requires 0 <= i < 7 => Metric(MetricLabels[i], SubScores(p)[i]))
  }

  function Values(m: seq<Metric>): (v: seq<real>)
    ensures |v| == |m| && forall i | 0 <= i < |m| :: v[i] == m[i].value
  {
    if m == [] then [] else [m[0].value] + Values(m[1..])
  }

  /** The overall score is the mean of the values the breakdown lists. */
  lemma OverallIsMeanOfBreakdown(p: Record)
    ensures OverallScore(p) == Mean(Values(Metrics(p)))
  {
    assert Values(Metrics(p)) == SubScores(p);
  }
}
