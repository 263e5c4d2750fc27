/**
 * The facial scorer: per-frame expression and eye-contact heuristics over the
 * output of the face-landmark model, the dominant-expression label and the
 * display bands of the facial panel.
 */
module FacialScorer {
  import opened Common

  /** A landmark position in video pixels. */
  datatype Point = Point(x: real, y: real)

  /** The seven labels the expression model reports. */
  datatype Emotion = Neutral | Happy | Sad | Angry | Fearful | Disgusted | Surprised

  /** The property name the expression object uses for a label. */
  function Name(e: Emotion): string {
    match e
    case Neutral => "neutral"
    case Happy => "happy"
    case Sad => "sad"
    case Angry => "angry"
    case Fearful => "fearful"
    case Disgusted => "disgusted"
    case Surprised => "surprised"
  }

  /** One property of the expression object, in `Object.entries` order. */
  datatype Entry = Entry(emotion: Emotion, p: real)

  /** The expression object: emotion label to probability, in insertion order. */
  type Expressions = seq<Entry>

  predicate DistinctLabels(es: Expressions) {
    forall i, j | 0 <= i < j < |es| :: es[i].emotion != es[j].emotion
  }

  /** `expressions[key] || 0`: the probability stored under `key`, 0 when the key is absent. */
  function Prob(es: Expressions, key: Emotion): (r: real)
    ensures (forall i | 0 <= i < |es| :: es[i].emotion != key) ==> r == 0.0
    ensures r == 0.0 || exists i | 0 <= i < |es| :: es[i] == Entry(key, r)
  {
    if es == [] then 0.0
    else if es[0].emotion == key then es[0].p
    else Prob(es[1..], key)
  }

  /** In an object (labels distinct) the lookup finds the stored probability. */
  lemma {:induction false} ProbFindsEntry(es: Expressions, i: nat)
    requires DistinctLabels(es) && i < |es|
    ensures Prob(es, es[i].emotion) == es[i].p
  {
    if i > 0 {
      assert es[1..][i - 1] == es[i];
      ProbFindsEntry(es[1..], i - 1);
    }
  }

  /** The object face-api builds, with its seven labels in its own order. */
  function FaceVector(neutral: real, happy: real, sad: real, angry: real,
                      fearful: real, disgusted: real, surprised: real): (es: Expressions)
    ensures |es| == 7 && DistinctLabels(es)
  {
    [Entry(Neutral, neutral), Entry(Happy, happy), Entry(Sad, sad), Entry(Angry, angry),
     Entry(Fearful, fearful), Entry(Disgusted, disgusted), Entry(Surprised, surprised)]
  }

  /** The unclamped weighted sum of the expression heuristic. */
  function RawExpressionScore(es: Expressions): real {
    var positive := Prob(es, Happy) + Prob(es, Surprised) * 0.5;
    var negative := Prob(es, Angry) + Prob(es, Disgusted) + Prob(es, Fearful) + Prob(es, Sad);
    var neutral := Prob(es, Neutral);
    0.5 + positive * 0.5 - negative * 0.3 + neutral * 0.1
  }

  /** `calculateExpressionScore`: a missing object scores 0, otherwise the clamped sum. */
  function ExpressionScore(expressions: Option<Expressions>): (r: real)
    ensures InUnit(r)
    ensures expressions.None? ==> r == 0.0
  {
    match expressions
    case None => 0.0
    case Some(es) => Clamp01(RawExpressionScore(es))
  }

  /** The weighted sum of a face-api vector, written over its seven probabilities. */
  function VectorFormula(neutral: real, happy: real, sad: real, angry: real,
                         fearful: real, disgusted: real, surprised: real): real
  {
    0.5 + (happy + surprised * 0.5) * 0.5 - (angry + disgusted + fearful + sad) * 0.3 + neutral * 0.1
  }

  /** Looking the seven labels up in a face-api vector finds each stored probability. */
  lemma RawScoreOfVector(neutral: real, happy: real, sad: real, angry: real,
                         fearful: real, disgusted: real, surprised: real)
    ensures RawExpressionScore(FaceVector(neutral, happy, sad, angry, fearful, disgusted, surprised))
         == VectorFormula(neutral, happy, sad, angry, fearful, disgusted, surprised)
  {
    var es := FaceVector(neutral, happy, sad, angry, fearful, disgusted, surprised);
    ProbFindsEntry(es, 0);
    ProbFindsEntry(es, 1);
    ProbFindsEntry(es, 2);
    ProbFindsEntry(es, 3);
    ProbFindsEntry(es, 4);
    ProbFindsEntry(es, 5);
    ProbFindsEntry(es, 6);
  }

  /** On a face-api vector the score is the clamped closed formula. */
  lemma ExpressionScoreOfVector(neutral: real, happy: real, sad: real, angry: real,
                                fearful: real, disgusted: real, surprised: real)
    ensures ExpressionScore(Some(FaceVector(neutral, happy, sad, angry, fearful, disgusted, surprised)))
         == Clamp01(VectorFormula(neutral, happy, sad, angry, fearful, disgusted, surprised))
  {
    RawScoreOfVector(neutral, happy, sad, angry, fearful, disgusted, surprised);
  }

  /** An empty object, or one whose probabilities are all zero, scores exactly 0.5. */
  lemma AllZeroScoresHalf(es: Expressions)
    requires forall i | 0 <= i < |es| :: es[i].p == 0.0
    ensures ExpressionScore(Some(es)) == 0.5
  {
  }

  /** Pure happiness scores 1.0; pure anger scores 0.2. */
  lemma PureEmotionScores()
    ensures ExpressionScore(Some(FaceVector(0.0, 1.0, 0.0, 0.0, 0.0, 0.0, 0.0))) == 1.0
    ensures ExpressionScore(Some(FaceVector(0.0, 0.0, 0.0, 1.0, 0.0, 0.0, 0.0))) == 0.2
  {
    ExpressionScoreOfVector(0.0, 1.0, 0.0, 0.0, 0.0, 0.0, 0.0);
    ExpressionScoreOfVector(0.0, 0.0, 0.0, 1.0, 0.0, 0.0, 0.0);
  }

  /** `after` is `before` with the probability of `e` raised by `t` and nothing else changed. */
  predicate RaisedBy(before: Expressions, after: Expressions, e: Emotion, t: real) {
    forall e' :: Prob(after, e') == Prob(before, e') + (if e' == e then t else 0.0)
  }

  lemma Clamp01Monotone(a: real, b: real)
    requires a <= b
    ensures Clamp01(a) <= Clamp01(b)
  {
  }

  /** Surprise counts at half the weight of happiness: 2t more surprise is worth t more happiness. */
  lemma SurpriseHalfWeight(es: Expressions, moreSurprised: Expressions, happier: Expressions, t: real)
    requires RaisedBy(es, moreSurprised, Surprised, 2.0 * t)
    requires RaisedBy(es, happier, Happy, t)
    ensures ExpressionScore(Some(moreSurprised)) == ExpressionScore(Some(happier))
  {
    assert RawExpressionScore(moreSurprised) == RawExpressionScore(es) + 0.5 * t;
    assert RawExpressionScore(happier) == RawExpressionScore(es) + 0.5 * t;
  }

  /** More happiness never lowers the score and more of a negative emotion never raises it. */
  lemma ExpressionScoreMonotone(es: Expressions, after: Expressions, e: Emotion, t: real)
    requires RaisedBy(es, after, e, t) && t >= 0.0
    ensures e == Happy ==> ExpressionScore(Some(es)) <= ExpressionScore(Some(after))
    ensures e in {Angry, Disgusted, Fearful, Sad} ==> ExpressionScore(Some(after)) <= ExpressionScore(Some(es))
  {
    if e == Happy {
      assert RawExpressionScore(after) == RawExpressionScore(es) + 0.5 * t;
      Clamp01Monotone(RawExpressionScore(es), RawExpressionScore(after));
    } else if e in {Angry, Disgusted, Fearful, Sad} {
      assert RawExpressionScore(after) == RawExpressionScore(es) - 0.3 * t;
      Clamp01Monotone(RawExpressionScore(after), RawExpressionScore(es));
    }
  }

  // ---------------------------------------------------------------- eye contact

  const LandmarkCount: nat := 68
  const NoseTip: nat := 30

  /** `points.reduce((sum, pt) => sum + pt.x, 0)` */
  function SumX(pts: seq<Point>): real {
    if pts == [] then 0.0 else SumX(pts[..|pts| - 1]) + pts[|pts| - 1].x
  }

  /** `points.reduce((sum, pt) => sum + pt.y, 0)` */
  function SumY(pts: seq<Point>): real {
    if pts == [] then 0.0 else SumY(pts[..|pts| - 1]) + pts[|pts| - 1].y
  }

  /** The arithmetic mean of a non-empty set of points. */
  function Center(pts: seq<Point>): Point
    requires |pts| > 0
  {
    Point(SumX(pts) / |pts| as real, SumY(pts) / |pts| as real)
  }

  /** Horizontal distance from the nose tip to the centre of one eye. */
  function Offset(nose: Point, eye: seq<Point>): real
    requires |eye| > 0
  {
    Abs(Center(eye).x - nose.x)
  }

  /** The mean of the two eye-centre heights. */
  function EyeLevel(leftEye: seq<Point>, rightEye: seq<Point>): real
    requires |leftEye| > 0 && |rightEye| > 0
  {
    (Center(leftEye).y + Center(rightEye).y) / 2.0
  }

  /**
   * 1 - min(0.5, |ratio - 1|) * 2 for ratio = left / right. A zero right
   * offset with a non-zero left one makes the ratio +Infinity, which saturates.
   */
  function SymmetryScore(left: real, right: real): (r: real)
    requires left >= 0.0 && right >= 0.0 && (left != 0.0 || right != 0.0)
    ensures InUnit(r)
    ensures right != 0.0 && left == right ==> r == 1.0
    ensures right == 0.0 || Abs(left / right - 1.0) >= 0.5 ==> r == 0.0
  {
    if right == 0.0 then 0.0
    else 1.0 - Min(0.5, Abs(left / right - 1.0)) * 2.0
  }

  /** 1 - min(0.5, |noseY - eyeLevel| / 50) * 2 */
  function VerticalScore(noseY: real, eyeLevel: real): (r: real)
    ensures InUnit(r)
    ensures noseY == eyeLevel ==> r == 1.0
    ensures Abs(noseY - eyeLevel) >= 25.0 ==> r == 0.0
  {
    1.0 - Min(0.5, Abs(noseY - eyeLevel) / 50.0) * 2.0
  }

  /** The symmetry ratio is not 0/0 (which is NaN and escapes the clamp). */
  predicate EyesScorable(nose: Point, leftEye: seq<Point>, rightEye: seq<Point>) {
    |leftEye| > 0 && |rightEye| > 0 && (Offset(nose, leftEye) != 0.0 || Offset(nose, rightEye) != 0.0)
  }

  /** 80% symmetry, 20% vertical position, clamped. */
  function PoseScore(nose: Point, leftEye: seq<Point>, rightEye: seq<Point>): (r: real)
    requires EyesScorable(nose, leftEye, rightEye)
    ensures InUnit(r)
  {
    Clamp01(SymmetryScore(Offset(nose, leftEye), Offset(nose, rightEye)) * 0.8
            + VerticalScore(nose.y, EyeLevel(leftEye, rightEye)) * 0.2)
  }

  /** Eye points as the source samples them: `slice(37, 42)` and `slice(43, 48)`. */
  function LeftEye(lm: seq<Point>): seq<Point>
    requires |lm| >= LandmarkCount
  {
    lm[37..42]
  }

  function RightEye(lm: seq<Point>): seq<Point>
    requires |lm| >= LandmarkCount
  {
    lm[43..48]
  }

  predicate Scorable(lm: seq<Point>) {
    |lm| >= LandmarkCount ==> EyesScorable(lm[NoseTip], LeftEye(lm), RightEye(lm))
  }

  /** `calculateEyeContactScore`: 0 for fewer than 68 landmarks, otherwise the pose score in [0,1]. */
  function EyeContactScore(lm: seq<Point>): (r: real)
    requires Scorable(lm)
    ensures InUnit(r)
    ensures |lm| < LandmarkCount ==> r == 0.0
  {
    if |lm| < LandmarkCount then 0.0
    else PoseScore(lm[NoseTip], LeftEye(lm), RightEye(lm))
  }

  /** Equal eye-to-nose distances with the nose tip at eye level score exactly 1. */
  lemma PerfectPoseScoresOne(lm: seq<Point>)
    requires |lm| >= LandmarkCount
    requires Offset(lm[NoseTip], LeftEye(lm)) == Offset(lm[NoseTip], RightEye(lm)) != 0.0
    requires lm[NoseTip].y == EyeLevel(LeftEye(lm), RightEye(lm))
    ensures Scorable(lm) && EyeContactScore(lm) == 1.0
  {
  }

  /** A symmetry ratio at least 0.5 away from 1 zeroes the symmetry term: the score is at most 0.2. */
  lemma AsymmetryCapsScore(lm: seq<Point>)
    requires |lm| >= LandmarkCount && Scorable(lm)
    requires var l, r := Offset(lm[NoseTip], LeftEye(lm)), Offset(lm[NoseTip], RightEye(lm));
             r == 0.0 || Abs(l / r - 1.0) >= 0.5
    ensures EyeContactScore(lm) <= 0.2
  {
  }

  /** A nose tip 25 pixels or more off eye level zeroes the vertical term: the score is at most 0.8. */
  lemma VerticalDriftCapsScore(lm: seq<Point>)
    requires |lm| >= LandmarkCount && Scorable(lm)
    requires Abs(lm[NoseTip].y - EyeLevel(LeftEye(lm), RightEye(lm))) >= 25.0
    ensures EyeContactScore(lm) <= 0.8
  {
  }

  /** Two landmark sets agreeing on points 30, 37-41 and 43-47 score the same. */
  predicate AgreeOnSampled(a: seq<Point>, b: seq<Point>)
    requires |a| >= LandmarkCount && |b| >= LandmarkCount
  {
    a[NoseTip] == b[NoseTip] &&
    (forall i | 37 <= i < 42 :: a[i] == b[i]) &&
    (forall i | 43 <= i < 48 :: a[i] == b[i])
  }

  lemma EyeContactDependsOnlyOnSampled(a: seq<Point>, b: seq<Point>)
    requires |a| >= LandmarkCount && |b| >= LandmarkCount && AgreeOnSampled(a, b)
    requires Scorable(a)
    ensures Scorable(b) && EyeContactScore(a) == EyeContactScore(b)
  {
    assert LeftEye(a) == LeftEye(b);
    assert RightEye(a) == RightEye(b);
  }

  // ------------------------------------------------------------------ finding

  /** The eyes of the 0-based 68-point scheme: points 36-41 and 42-47. */
  function SixPointLeftEye(lm: seq<Point>): seq<Point>
    requires |lm| >= LandmarkCount
  {
    lm[36..42]
  }

  function SixPointRightEye(lm: seq<Point>): seq<Point>
    requires |lm| >= LandmarkCount
  {
    lm[42..48]
  }

  predicate SixPointScorable(lm: seq<Point>) {
    |lm| >= LandmarkCount ==> EyesScorable(lm[NoseTip], SixPointLeftEye(lm), SixPointRightEye(lm))
  }

  /** The eye-contact score with each eye centre averaged over all six of its points. */
  function SixPointEyeContactScore(lm: seq<Point>): (r: real)
    requires SixPointScorable(lm)
    ensures InUnit(r)
    ensures |lm| < LandmarkCount ==> r == 0.0
  {
    if |lm| < LandmarkCount then 0.0
    else PoseScore(lm[NoseTip], SixPointLeftEye(lm), SixPointRightEye(lm))
  }

  /** Point `j` is point `i` reflected in the vertical line through the nose tip. */
  predicate MirrorOf(lm: seq<Point>, i: nat, j: nat)
    requires i < |lm| && j < |lm| && NoseTip < |lm|
  {
    lm[j] == Point(2.0 * lm[NoseTip].x - lm[i].x, lm[i].y)
  }

  /** A frontal face: each right-eye point is the reflection of its left-eye partner. */
  predicate MirroredEyes(lm: seq<Point>)
    requires |lm| >= LandmarkCount
  {
    MirrorOf(lm, 36, 45) && MirrorOf(lm, 37, 44) && MirrorOf(lm, 38, 43) &&
    MirrorOf(lm, 39, 42) && MirrorOf(lm, 40, 47) && MirrorOf(lm, 41, 46)
  }

  /** Unfolds the left fold over the first `n` points one point at a time. */
  lemma {:induction false} SumPrefix(s: seq<Point>, n: nat)
    requires 0 < n <= |s|
    ensures SumX(s[..n]) == SumX(s[..n - 1]) + s[n - 1].x
    ensures SumY(s[..n]) == SumY(s[..n - 1]) + s[n - 1].y
  {
    assert s[..n][..n - 1] == s[..n - 1];
  }

  lemma SumSix(s: seq<Point>)
    requires |s| == 6
    ensures SumX(s) == s[0].x + s[1].x + s[2].x + s[3].x + s[4].x + s[5].x
    ensures SumY(s) == s[0].y + s[1].y + s[2].y + s[3].y + s[4].y + s[5].y
  {
    assert s[..6] == s;
    SumPrefix(s, 6);
    SumPrefix(s, 5);
    SumPrefix(s, 4);
    SumPrefix(s, 3);
    SumPrefix(s, 2);
    SumPrefix(s, 1);
  }

  /** With six-point eyes, every level mirrored frontal face scores exactly 1. */
  lemma SixPointMirroredFaceScoresOne(lm: seq<Point>)
    requires |lm| >= LandmarkCount && MirroredEyes(lm)
    requires Center(SixPointLeftEye(lm)).x != lm[NoseTip].x
    requires lm[NoseTip].y == EyeLevel(SixPointLeftEye(lm), SixPointRightEye(lm))
    ensures SixPointScorable(lm) && SixPointEyeContactScore(lm) == 1.0
  {
    var l, r := SixPointLeftEye(lm), SixPointRightEye(lm);
    SumSix(l);
    SumSix(r);
    var n := lm[NoseTip].x;
    assert SumX(r) == 12.0 * n - SumX(l);
    assert Center(r).x - n == n - Center(l).x;
    assert Offset(lm[NoseTip], l) == Offset(lm[NoseTip], r);
  }

  /** The concrete mirrored face of the finding: outer corners at +-40, inner corners at +-20. */
  predicate FindingFace(lm: seq<Point>)
    requires |lm| >= LandmarkCount
  {
    lm[NoseTip] == Point(0.0, 0.0) &&
    lm[36..48] == [Point(-40.0, 0.0), Point(-35.0, 0.0), Point(-25.0, 0.0), Point(-20.0, 0.0),
                   Point(-25.0, 0.0), Point(-35.0, 0.0), Point(20.0, 0.0), Point(25.0, 0.0),
                   Point(35.0, 0.0), Point(40.0, 0.0), Point(35.0, 0.0), Point(25.0, 0.0)]
  }

  lemma SumFive(s: seq<Point>)
    requires |s| == 5
    ensures SumX(s) == s[0].x + s[1].x + s[2].x + s[3].x + s[4].x
    ensures SumY(s) == s[0].y + s[1].y + s[2].y + s[3].y + s[4].y
  {
    assert s[..5] == s;
    SumPrefix(s, 5);
    SumPrefix(s, 4);
    SumPrefix(s, 3);
    SumPrefix(s, 2);
    SumPrefix(s, 1);
  }

  /**
   * As written, that mirrored, level face scores 0.8: the five-point samples
   * drop the outer corner of one eye and the inner corner of the other.
   */
  lemma MirroredFaceScoresBelowOne(lm: seq<Point>)
    requires |lm| >= LandmarkCount && FindingFace(lm)
    ensures MirroredEyes(lm)
    ensures Scorable(lm) && EyeContactScore(lm) == 0.8
    ensures SixPointScorable(lm) && SixPointEyeContactScore(lm) == 1.0
  {
    var w := lm[36..48];
    assert forall i | 36 <= i < 48 :: lm[i] == w[i - 36];
    var l, r := LeftEye(lm), RightEye(lm);
    SumFive(l);
    SumFive(r);
    assert Center(l) == Point(-28.0, 0.0);
    assert Center(r) == Point(32.0, 0.0);
    assert Offset(lm[NoseTip], l) == 28.0;
    assert Offset(lm[NoseTip], r) == 32.0;
    assert SymmetryScore(28.0, 32.0) == 0.75;
    var l6, r6 := SixPointLeftEye(lm), SixPointRightEye(lm);
    SumSix(l6);
    SumSix(r6);
    assert Center(l6) == Point(-30.0, 0.0);
    SixPointMirroredFaceScoresOne(lm);
  }

  // ------------------------------------------------------- dominant expression

  /** The first index holding the largest probability (the sort is stable and descending). */
  function FirstMaxIndex(es: Expressions): (k: nat)
    requires |es| > 0
    ensures k < |es|
    ensures forall j | 0 <= j < |es| :: es[j].p <= es[k].p
    ensures forall j | 0 <= j < k :: es[j].p < es[k].p
  {
    if |es| == 1 then 0
    else
      var k := FirstMaxIndex(es[..|es| - 1]);
      if es[|es| - 1].p > es[k].p then |es| - 1 else k
  }

  /** `getDominantExpression`: "neutral" for an empty object, else the first label of largest probability. */
  function DominantExpression(es: Expressions): (dominant: string)
    ensures es == [] ==> dominant == "neutral"
    ensures es != [] ==>
      exists k | 0 <= k < |es| ::
        dominant == Name(es[k].emotion) &&
        (forall j | 0 <= j < |es| :: es[j].p <= es[k].p) &&
        (forall j | 0 <= j < k :: es[j].p < es[k].p)
  {
    if es == [] then "neutral" else Name(es[FirstMaxIndex(es)].emotion)
  }

  // ------------------------------------------------------------------ display

  const EyeContactTiers := Tiers(
    "Try to maintain more eye contact with the camera",
    "Good eye contact, but could be more consistent",
    "Excellent eye contact throughout")

  const ExpressionTiers := Tiers(
    "Try to show more expression and engagement",
    "Your expressions are appropriate but could be more dynamic",
    "Great facial engagement and expressiveness")

  /** `getFeedback`: the sentence of the metric's tier, which is the tier of its colour. */
  function Feedback(metric: string, value: real): (r: string)
    ensures metric == "eyeContact" ==> r == Pick(EyeContactTiers, LiveColorClass(value))
    ensures metric == "facialExpressions" ==> r == Pick(ExpressionTiers, LiveColorClass(value))
    ensures metric != "eyeContact" && metric != "facialExpressions" ==> r == ""
  {
    if metric == "eyeContact" then
      if value < 0.3 then EyeContactTiers.low
      else if value < 0.7 then EyeContactTiers.mid
      else EyeContactTiers.high
    else if metric == "facialExpressions" then
      if value < 0.3 then ExpressionTiers.low
      else if value < 0.7 then ExpressionTiers.mid
      else ExpressionTiers.high
    else ""
  }
}
