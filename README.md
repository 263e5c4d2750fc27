# Mock Interview AI — scoring core in Dafny

Mock Interview AI runs a practice job interview in the browser. It asks seven
questions in a row. While the candidate answers, it listens to the
microphone and scores the speech live. It is also built to score the webcam
feed live, but as written the video element never receives the camera stream
(see `InterviewPage.Session.HandleFacialDataUpdate` under "## Left out"). At
the end it shows a summary with a grade and tips for improvement.

This project models the scoring logic behind that flow:

- **Facial scorer** (`FacialScorer`, `facial_scorer.dfy`) models:
  - the expression heuristic, a weighted sum of the face-expression
    probabilities clamped to [0, 1];
  - the eye-contact heuristic, built from nose-to-eye symmetry and vertical
    drift over a 68-point landmark set;
  - the dominant expression;
  - the live colour bands and feedback texts.
- **Speech text** (`SpeechText`, `speech_text.dfy`) models:
  - lower-casing;
  - counting the eight filler words as whole words, the way the global
    regular expression `\bword\b` matches;
  - the word count produced by `split(/\s+/)`.
- **Speech scorer** (`SpeechScorer`, `speech_scorer.dfy`) models:
  - the pace classes, the vocal-variety classes, and the clarity and
    confidence scores;
  - the feedback texts;
  - the panel state updated by each recognition result, as the class
    `SpeechAnalyzer`.
- **Performance record** (`Performance`, `performance.dfy`) models:
  - the eight-field record the interview page keeps;
  - the pure updates the page's handlers apply to it: the facial and speech
    updates, the smoothed body-language and emotional-intelligence scores,
    the content-relevance seed and step, and the overall mean.
- **Interview page** (`InterviewPage`, `interview.dfy`) models the session
  controller as the class `Session`:
  - the stage machine Setup → Intro → Interview → Results;
  - the question index;
  - the recording flag;
  - the start countdown, a loop of five ticks;
  - the handlers that write into the record.
- **Results summary** (`ResultsSummary`, `results_summary.dfy`) models:
  - the letter grade;
  - the summary colour bands;
  - the improvement tips, a method of seven conditional pushes proved equal
    to a specification function;
  - the seven-entry breakdown.
- **Common** (`Common`, `common.dfy`) holds the shared helpers: `Option`,
  the three colours, `Abs`, `Min`, `Max`, clamping to [0, 1], the
  two-threshold colour band, and the 0.3/0.7 band both live panels use.

Two facts about the speech scores follow from the code:

- With 0 words, the code's filler ratio is 0, so the filler score is 1 and the
  confidence score is 0.6 + 0.4 × raw confidence (`SpeechAnalysis.tsx:245-249`).
  A transcript never has 0 words, though (`SpeechScorer.TranscriptWordCountPositive`).
- The rate comparisons are strict, and the words-per-minute estimate is always
  a multiple of 12. So 195 and 165 words per minute never occur, and
  `SpeechScorer.RateClass` states the classes as ranges of the word count.

## Model

| member | source | states |
|---|---|---|
| Common.Clamp01 | app/components/FacialAnalysis.tsx:157 | `Math.max(0, Math.min(1, x))` lies in [0, 1], is the identity on [0, 1], and gives 0 below and 1 above |
| FacialScorer.Prob | app/components/FacialAnalysis.tsx:141-151 | `expressions.k \|\| 0` is 0 when the label is absent; otherwise it is a probability stored under that label |
| FacialScorer.ProbFindsEntry | app/components/FacialAnalysis.tsx:141-151 | when labels are distinct, the lookup returns exactly the stored probability |
| FacialScorer.ExpressionScore | app/components/FacialAnalysis.tsx:137-157 | the expression score always lies in [0, 1]; a missing expression object scores 0 |
| FacialScorer.RawScoreOfVector | app/components/FacialAnalysis.tsx:141-154 | on a face-api vector, the unclamped score is 0.5 + 0.5·(happy + 0.5·surprised) − 0.3·(angry + disgusted + fearful + sad) + 0.1·neutral |
| FacialScorer.ExpressionScoreOfVector | app/components/FacialAnalysis.tsx:137-157 | the score of a face-api vector is that sum clamped to [0, 1] |
| FacialScorer.AllZeroScoresHalf | app/components/FacialAnalysis.tsx:154-157 | an object whose probabilities are all 0 scores the 0.5 baseline |
| FacialScorer.PureEmotionScores | app/components/FacialAnalysis.tsx:141-157 | pure happiness scores 1; pure anger scores 0.2 |
| FacialScorer.Clamp01Monotone | app/components/FacialAnalysis.tsx:157 | clamping preserves order |
| FacialScorer.SurpriseHalfWeight | app/components/FacialAnalysis.tsx:141 | raising surprise by 2t changes the score exactly as raising happiness by t does |
| FacialScorer.ExpressionScoreMonotone | app/components/FacialAnalysis.tsx:141-157 | more happiness never lowers the score; more anger, disgust, fear or sadness never raises it |
| FacialScorer.SymmetryScore | app/components/FacialAnalysis.tsx:187-190 | lies in [0, 1]; equal nose-to-eye offsets score 1; a ratio 0.5 or more away from 1 scores 0, and so does an infinite one (right offset 0) |
| FacialScorer.VerticalScore | app/components/FacialAnalysis.tsx:193 | lies in [0, 1]; the nose at eye level scores 1; a drift of 25 px or more scores 0 |
| FacialScorer.PoseScore | app/components/FacialAnalysis.tsx:173-198 | the weighted pose score (80 % symmetry, 20 % vertical), clamped, lies in [0, 1] |
| FacialScorer.EyeContactScore | app/components/FacialAnalysis.tsx:161-199 | lies in [0, 1]; fewer than 68 landmarks score 0 |
| FacialScorer.PerfectPoseScoresOne | app/components/FacialAnalysis.tsx:187-198 | equal eye offsets with the nose at eye level score exactly 1 |
| FacialScorer.AsymmetryCapsScore | app/components/FacialAnalysis.tsx:190-198 | an offset ratio 0.5 or more away from 1 caps the score at 0.2 |
| FacialScorer.VerticalDriftCapsScore | app/components/FacialAnalysis.tsx:193-198 | a vertical drift of 25 px or more caps the score at 0.8 |
| FacialScorer.EyeContactDependsOnlyOnSampled | app/components/FacialAnalysis.tsx:168-171 | two landmark sets that agree on the nose tip and the sliced eye points score the same |
| FacialScorer.SixPointEyeContactScore | app/components/FacialAnalysis.tsx:167-171 | the corrected score averages all six points of each eye; it lies in [0, 1], and fewer than 68 landmarks score 0 |
| FacialScorer.SixPointMirroredFaceScoresOne | app/components/FacialAnalysis.tsx:167-199 | a face whose eyes mirror each other about the nose, with the nose at eye level, scores 1 under the corrected slices |
| FacialScorer.MirroredFaceScoresBelowOne | app/components/FacialAnalysis.tsx:170-171 | the mirrored face `FindingFace` scores 0.8 with the slices as written and 1 with the corrected ones |
| FacialScorer.FirstMaxIndex | app/components/FacialAnalysis.tsx:228-230 | the index of a largest probability, with every earlier entry strictly smaller; this is the first entry after a stable descending sort |
| FacialScorer.DominantExpression | app/components/FacialAnalysis.tsx:225-231 | an empty object gives "neutral"; otherwise the label of the first entry with the largest probability |
| Common.LiveColorClass | app/components/FacialAnalysis.tsx:214-218 | red exactly below 0.3, yellow exactly on [0.3, 0.7), green exactly from 0.7 (the speech panel's `getColorClass`, SpeechAnalysis.tsx:265-269, is the same) |
| FacialScorer.Feedback | app/components/FacialAnalysis.tsx:201-212 | the eye-contact and expression texts follow the live colour band (`Common.LiveColorClass`) of the value; any other metric gives "" |
| SpeechText.LowerChar | app/components/SpeechAnalysis.tsx:163 | maps A–Z to a–z and leaves every other character as it is |
| SpeechText.ToLower | app/components/SpeechAnalysis.tsx:163 | keeps the length and lower-cases each character |
| SpeechText.NoMatchInside | app/components/SpeechAnalysis.tsx:165-169 | for a filler whose last character appears nowhere else in it, no match starts inside another match |
| SpeechText.SkipMatch | app/components/SpeechAnalysis.tsx:165-169 | resuming the scan anywhere inside a match counts the same as resuming at its end |
| SpeechText.ScanCountsWholeWords | app/components/SpeechAnalysis.tsx:165-169 | the global regex scan, which resumes after each match, counts every bounded occurrence of the filler |
| SpeechText.FillersLastCharUnique | app/components/SpeechAnalysis.tsx:160 | each of the eight fillers has a last character that appears nowhere else in it, so the scans above count every occurrence |
| SpeechText.CountFillers | app/components/SpeechAnalysis.tsx:159-170 | the `forEach` loop's total is the sum over the eight fillers of their whole-word matches in the lower-cased transcript |
| SpeechText.FillerTotalUnfold | app/components/SpeechAnalysis.tsx:160-170 | the filler total is the explicit sum of the eight per-word counts |
| SpeechText.SumOccurrencesIsWholeWords | app/components/SpeechAnalysis.tsx:164-170 | for words whose last character is unique, the summed regex scans equal the summed counts of whole-word positions |
| SpeechText.FillerTotalCountsWholeWords | app/components/SpeechAnalysis.tsx:160-170 | the filler total is the number of positions, summed over the eight fillers, where a filler stands as a whole word in the lower-cased transcript |
| SpeechText.FirstCharAbsent | app/components/SpeechAnalysis.tsx:165-166 | a word whose first character stands at no position it could start from has no match |
| SpeechText.NoLongFiller | app/components/SpeechAnalysis.tsx:160-166 | none of "you know", "sort of", "kind of", "basically" and "actually" occurs in "um, like, um" |
| SpeechText.LowerExample | app/components/SpeechAnalysis.tsx:163 | "Um, like, um" lower-cases to "um, like, um" |
| SpeechText.FillerExample | app/components/SpeechAnalysis.tsx:159-170 | "Um, like, um" holds three fillers |
| SpeechText.FillerInsideWordIgnored | app/components/SpeechAnalysis.tsx:165 | "unlike" holds no filler: `\b` keeps "like" from matching inside a word |
| SpeechText.FirstSpace | app/components/SpeechAnalysis.tsx:175 | finds the next whitespace character, skipping only non-whitespace |
| SpeechText.SkipSpaces | app/components/SpeechAnalysis.tsx:175 | skips exactly one run of whitespace |
| SpeechText.Split | app/components/SpeechAnalysis.tsx:175 | `split(/\s+/)` gives at least one piece, and no piece contains whitespace |
| SpeechText.WordCountIsRunsPlusOne | app/components/SpeechAnalysis.tsx:175 | the word count is one more than the number of whitespace runs |
| SpeechText.EmptyTranscriptIsOneWord | app/components/SpeechAnalysis.tsx:175 | the empty transcript counts as one word |
| SpeechScorer.RateClass | app/components/SpeechAnalysis.tsx:174-190 | Too Fast exactly from 17 words, Slightly Fast for 14–16, Normal for 12–13, Slightly Slow for 9–11, Too Slow up to 8 |
| SpeechScorer.RateClassMonotone | app/components/SpeechAnalysis.tsx:181-190 | more words never give a slower class |
| SpeechScorer.RateLabelsDistinct | app/components/SpeechAnalysis.tsx:181-190 | the five status strings are pairwise different, so the clarity switch on the string (lines 223-236) is a switch on the class |
| SpeechScorer.VocalVariety | app/components/SpeechAnalysis.tsx:196-201 | Good exactly above 0.8, Limited exactly below 0.5, Moderate in between |
| SpeechScorer.VocalVarietyMonotone | app/components/SpeechAnalysis.tsx:196-201 | a higher raw confidence never gives a lower variety class |
| SpeechScorer.VarietyLabelsDistinct | app/components/SpeechAnalysis.tsx:196-201 | the three variety strings are pairwise different |
| SpeechScorer.RateScore | app/components/SpeechAnalysis.tsx:221-236 | the rate score lies in [0.3, 0.7] and is 0.7 exactly for Normal |
| SpeechScorer.ClarityScore | app/components/SpeechAnalysis.tsx:220-240 | with raw confidence in [0, 1], clarity lies in [0.21, 0.79] |
| SpeechScorer.NormalPaceIsClearest | app/components/SpeechAnalysis.tsx:220-240 | at equal raw confidence, a Normal pace gives the highest clarity, and only a Normal pace reaches it |
| SpeechScorer.ClarityGrowsWithConfidence | app/components/SpeechAnalysis.tsx:239 | clarity rises by 0.3 per unit of raw confidence |
| SpeechScorer.ClarityBands | app/components/SpeechAnalysis.tsx:220-240 | green clarity needs a Normal or Slightly Slow pace; Too Fast with raw confidence below 0.3 is red |
| SpeechScorer.TenthOfWords | app/components/SpeechAnalysis.tsx:245-246 | the ratio term reaches 1 exactly when fillers make up a tenth of the words or more |
| SpeechScorer.FillerScore | app/components/SpeechAnalysis.tsx:245-246 | lies in [0, 1]; is 1 when there are no words or no fillers; is 0 exactly when fillers make up a tenth of the words or more |
| SpeechScorer.FillerScoreAntitone | app/components/SpeechAnalysis.tsx:245-246 | more fillers never raise the filler score |
| SpeechScorer.ConfidenceScore | app/components/SpeechAnalysis.tsx:243-250 | lies in [0, 1] for raw confidence in [0, 1]; is 0.6 + 0.4·raw with no words or no fillers; is 0.4·raw once fillers make up a tenth of the words |
| SpeechScorer.ConfidenceFillerAntitone | app/components/SpeechAnalysis.tsx:243-250 | more fillers never raise the confidence score |
| SpeechScorer.TranscriptWordCountPositive | app/components/SpeechAnalysis.tsx:175 | a transcript's word count is 1 + its whitespace runs, so it is never 0 and the zero guard at line 245 is never taken |
| SpeechScorer.Feedback | app/components/SpeechAnalysis.tsx:252-263 | the clarity and confidence texts follow the live colour band (`Common.LiveColorClass`) of the value; any other metric gives "" |
| SpeechScorer.TranscriptScores | app/components/SpeechAnalysis.tsx:205-216 | the update sent to the page is the clarity of the transcript's pace class and the confidence of its fillers and words, both in [0, 1] |
| SpeechScorer.SpeechAnalyzer.constructor | app/components/SpeechAnalysis.tsx:66-70 | no transcripts, empty interim text, 0 fillers, Normal pace, Moderate variety |
| SpeechScorer.SpeechAnalyzer.AnalyzeTranscript | app/components/SpeechAnalysis.tsx:158-217 | adds the transcript's fillers to the running tally, sets its pace and variety classes, returns its scores, and changes nothing else |
| SpeechScorer.SpeechAnalyzer.OnResult | app/components/SpeechAnalysis.tsx:90-110 | a final result is appended, clears the interim text and is analysed; an interim result only replaces the interim text; the tally never decreases and old transcripts are kept |
| Performance.SubScores | app/interview/page.tsx:193 | the seven sub-scores in key order, without the overall score |
| Performance.SumBounds | app/interview/page.tsx:194 | the sum of values in [lo, hi] lies between n·lo and n·hi |
| Performance.Mean | app/interview/page.tsx:194 | the mean of values in [0, 1] lies in [0, 1] |
| Performance.OverallScore | app/interview/page.tsx:191-194 | the overall score of sub-scores in [0, 1] lies in [0, 1] |
| Performance.SumOfSeven | app/interview/page.tsx:194 | the `reduce` over seven values is their plain sum |
| Performance.OverallOfEqualScores | app/interview/page.tsx:193-194 | seven equal sub-scores average to that score |
| Performance.OverallOfAlternatingScores | app/interview/page.tsx:193-194 | the sub-scores 1, 0, 1, 0, 1, 0, 1 average to 4/7 |
| Performance.OverallScoreIgnoresOverall | app/interview/page.tsx:193 | the overall score already held plays no part in the new one |
| Performance.WithOverall | app/interview/page.tsx:196-199 | only the overall score changes, to the mean; with sub-scores in [0, 1] every score is then in [0, 1] |
| Performance.WithFacial | app/interview/page.tsx:147-155 | replaces the two facial scores; moves body language 30 % of the way to the new expression score; leaves the other fields unchanged; keeps every score in [0, 1] |
| Performance.WithSpeech | app/interview/page.tsx:158-168 | replaces the two speech scores; moves emotional intelligence 20 % towards the new confidence and 20 % towards the held expression score; leaves the other fields unchanged; keeps every score in [0, 1] |
| Performance.SpeechUsesHeldExpressionScore | app/interview/page.tsx:164-166 | a newer expression score shifts the emotional-intelligence update by exactly 0.2 times the change |
| Performance.SpeechWithoutFacialKeepsEmotionalIntelligenceLow | app/interview/page.tsx:157-167 | while the expression score stays 0, a speech update with confidence in [0, 1] keeps emotional intelligence at or below 0.5 |
| Performance.OverallWithoutFacialUpdates | app/interview/page.tsx:190-194 | a record with no facial update (eye contact, expressions and body language 0), clarity at most 0.79 and emotional intelligence at most 0.5 has an overall score of at most 3.29/7 (about 0.47) |
| Performance.Advanced | app/interview/page.tsx:129-132 | relevance grows by 0.1 up to the cap of 1 and never falls; no other field changes; every score stays in [0, 1] |
| Performance.AdvancedTimesClosedForm | app/interview/page.tsx:124-132 | after n non-final steps the relevance is min(start + 0.1·n, 1), and no other field has changed |
| Performance.Seeded | app/interview/page.tsx:171-178 | an unset (0) relevance becomes 0.5; any other record is unchanged; every score stays in [0, 1] |
| Performance.SeededThenFiveStepsReachCap | app/interview/page.tsx:171-178 | from the seed, five or more steps reach relevance 1 |
| InterviewPage.Session.constructor | app/interview/page.tsx:31-45 | Setup stage, question 0, not recording, countdown 5, every score 0, permissions not refused; the session invariant holds |
| InterviewPage.Session.StartInterview | app/interview/page.tsx:98-121 | callable from the setup screen while its button is enabled (lines 219-225; a refusal disables it for good, lines 90-91); a refusal records itself and changes nothing else; otherwise the countdown ticks five times, and the session ends in the Interview stage, recording, with countdown 0 and the relevance seeded to 0.5; the session invariant is kept |
| InterviewPage.Session.SeedContentRelevance | app/interview/page.tsx:171-178 | in the Interview stage the record is seeded; in any other stage nothing changes; in a valid session it changes nothing, so it acts only when `StartInterview` enters the interview |
| InterviewPage.Session.NextQuestion | app/interview/page.tsx:124-144 | offered only during the interview (lines 251-267); before the last question, it moves to the next question and steps the relevance; at the last one, it stops recording, shows the results and sets the overall score; the session invariant is kept, so during the interview the relevance is min(0.5 + 0.1 × question index, 1) and on the results screen the overall score is the mean of the sub-scores |
| InterviewPage.Session.GenerateFinalReport | app/interview/page.tsx:191-200 | the record gets its overall score recomputed; nothing else changes; the session invariant is kept |
| InterviewPage.Session.HandleFacialDataUpdate | app/interview/page.tsx:147-155 | the handler the facial panel is wired to during the interview (lines 332-341), taking scores in [0, 1]; the record becomes `WithFacial` of the old record; nothing else changes; the session invariant is kept |
| InterviewPage.Session.HandleSpeechDataUpdate | app/interview/page.tsx:158-168 | called by the speech panel, which is rendered during the interview (lines 332-353), with scores in [0, 1]; the record becomes `WithSpeech` of the old record; nothing else changes; the session invariant is kept |
| ResultsSummary.GetGrade | app/components/ResultsSummary.tsx:22-30 | each grade holds exactly on its tenth: A+ from 0.9, A, B+, B, C+ and C down to 0.4, D below 0.4 |
| ResultsSummary.GradeMonotone | app/components/ResultsSummary.tsx:22-30 | a higher score never earns a lower grade |
| ResultsSummary.GradeLabelsDistinct | app/components/ResultsSummary.tsx:22-30 | the seven grade strings are pairwise different, so the grade shown determines its band |
| ResultsSummary.ColorClass | app/components/ResultsSummary.tsx:32-36 | red exactly below 0.4, yellow exactly on [0.4, 0.7), green exactly from 0.7 |
| ResultsSummary.SummaryAndLiveBands | app/components/ResultsSummary.tsx:32-36 | the summary and live colours agree on green and differ exactly on [0.3, 0.4) |
| ResultsSummary.WeakTips | app/components/ResultsSummary.tsx:45-71 | lists at most one tip per score, and only from the given texts |
| ResultsSummary.WeakTipsMembership | app/components/ResultsSummary.tsx:45-71 | when texts are distinct, a tip is listed exactly when its score is below 0.6 |
| ResultsSummary.WeakTipsEmpty | app/components/ResultsSummary.tsx:45-73 | no tip is listed exactly when every score reaches 0.6 |
| ResultsSummary.WeakTipsSplit | app/components/ResultsSummary.tsx:45-71 | the tips of the earlier fields come before those of the later ones, in field order |
| ResultsSummary.Tips | app/components/ResultsSummary.tsx:42-74 | the summary shows between one and seven tips |
| ResultsSummary.TipTextsDistinct | app/components/ResultsSummary.tsx:45-73 | the seven tips and the fallback are all different texts |
| ResultsSummary.TipShownIffWeak | app/components/ResultsSummary.tsx:45-71 | a field's tip is shown exactly when its score is below 0.6 |
| ResultsSummary.FallbackIffNoWeakScore | app/components/ResultsSummary.tsx:73 | the fallback is shown, alone, exactly when every sub-score reaches 0.6 |
| ResultsSummary.TipsUpToIsWeakTips | app/components/ResultsSummary.tsx:43-71 | the pushes for the first k fields give the tips of those k fields |
| ResultsSummary.GetImprovementTips | app/components/ResultsSummary.tsx:42-74 | the seven conditional pushes and the fallback produce exactly `Tips` |
| ResultsSummary.Metrics | app/components/ResultsSummary.tsx:76-84 | seven entries, each the i-th sub-score under its label |
| ResultsSummary.OverallIsMeanOfBreakdown | app/components/ResultsSummary.tsx:76-84 | the overall score is the mean of the values the breakdown lists |

## Findings

| source | as written | input that shows it | evidently intended | confidence | as-written member | corrected member |
|---|---|---|---|---|---|---|
| app/components/FacialAnalysis.tsx:170-171 | `slice(37, 42)` and `slice(43, 48)` take five points per eye and drop points 36 and 42, the first point of each eye in the 0-based 68-point scheme (left eye 36–41, right eye 42–47) | `FindingFace`: a face whose eyes mirror each other about the nose, with the nose at eye level, scores 0.8 instead of 1 | average all six points of each eye (`slice(36, 42)`, `slice(42, 48)`), so that a mirrored, level face scores 1 | medium, not executed | FacialScorer.MirroredFaceScoresBelowOne | FacialScorer.SixPointMirroredFaceScoresOne |

The rest of the model keeps the as-written `EyeContactScore`, because the page
receives that score. The corrected `SixPointEyeContactScore` stands beside it
with the intended property proved.

## Left out

- Face detection, landmark extraction and the drawing loop (`FacialAnalysis.tsx` before line 137) run inside face-api.js and the browser. Their results enter the model as parameters: landmarks, expression objects.
- The speech recognition lifecycle (start, restart on end, errors) is left out. Transcripts and raw confidences enter as parameters of `OnResult`.
- SpeechScorer.SpeechAnalyzer.OnResult: its parameters are the single result `event.results[event.resultIndex]` that the handler reads (`SpeechAnalysis.tsx:94`). Any further results delivered in the same event are dropped by the code itself, and so are never passed to the model.
- InterviewPage.Session.HandleFacialDataUpdate: the model allows calls that the page as written never makes. The stream is attached only `if (webcamRef.current)` (`page.tsx:65-67`), from the Setup stage's button (`page.tsx:98-99`, `219-225`). In Setup no `<video>` is mounted, since it renders only in Intro and Interview (`page.tsx:301-309`), and line 66 is the only assignment of `srcObject`. The video mounted later therefore never loads, the facial panel waits for a `loadeddata` event that does not come (`FacialAnalysis.tsx:60-64`), and no facial update is delivered. Then eye contact, facial expressions and body language stay 0 for the whole session, so at least three improvement tips always show, emotional intelligence stays at or below 0.5, and the overall score stays at or below (0.79 + 1 + 1 + 0.5)/7 ≈ 0.47, a grade of C at best (`Performance.SpeechWithoutFacialKeepsEmotionalIntelligenceLow`, `Performance.OverallWithoutFacialUpdates`). The model describes the handler as the page wires it, for a page that attaches the stream once the video is mounted.
- Media permission requests (`page.tsx:54-95`) are left out. Their outcome is the `permissionsGranted` parameter of `StartInterview`. A refusal sets `permissionRefused`, which stands for the two permission flags that disable the start button (`page.tsx:90-91`, `222`). The error messages are not modelled.
- Stopping the media streams (`page.tsx:139-142`, `181-188`) is not modelled.
- Each `Session` method requires the stage in which the page offers its event. A second click on "I'm Ready" while the permission request is still pending is not modelled.
- InterviewPage.Session.HandleSpeechDataUpdate: requires the Interview stage, but late speech results are not modelled. Recognition restarts on `end` whenever the `isRecording` captured at mount was true (`SpeechAnalysis.tsx:117-125`), and unmounting calls `abort()` (`SpeechAnalysis.tsx:129-133`). If the browser fires `end` after that abort, recognition restarts on the results screen. Later final results then still reach `onSpeechDataUpdate` (`SpeechAnalysis.tsx:213-216`). They change the speech clarity, confidence and emotional intelligence while the overall score stays as computed.
- The content-relevance effect runs as part of `StartInterview`, at the moment the interview stage is entered, instead of on the following render.
- The one-second timer of the countdown is left out. The model runs its ticks as loop iterations, because time is not modelled.
- Numbers are exact reals, not IEEE doubles. Most results agree. Known differences:
  - 0.7·0.7 + 0.3 is 0.7899999999999999 in IEEE but 0.79 in the model.
  - Performance.OverallOfEqualScores: seven sub-scores of 0.8 average to 0.7999999999999999 in IEEE, not 0.8.
  - Performance.SeededThenFiveStepsReachCap: from the 0.5 seed, five 0.1 steps give 0.9999999999999999 in IEEE. The cap of 1 is reached only on the sixth step.
  - The products 150×1.3, 150×1.1, 150×0.7 and 150×0.9 are exactly 195, 165, 105 and 135 in IEEE too, so the pace classes are exact.
- FacialScorer.SymmetryScore: requires that the two nose-to-eye offsets are not both 0. 0/0 is NaN in the code, and NaN makes every comparison false; that case is not modelled. x/0 with x > 0 (infinity) is modelled and scores 0.
- `toLowerCase` is modelled on ASCII letters only; Unicode case mapping is not modelled. (`\b` and `\w` are ASCII-only under the flags `gi` without `u`, which is what `SpeechText.IsWordChar` models.)
- Performance.WithOverall: the page's `generateFinalReport` reads the record of the last render (a stale closure), not updates still pending in the same event. The model applies each update at once, so the two coincide, and React's batching of state updates is not modelled.
- `formatPercentage` and the JSX rendering are display-only and not modelled.
- app/page.tsx, app/demo/page.tsx and app/components/PerformanceMetrics.tsx are not part of this model. They are a landing page, a demo page and a display component.
- The question texts are kept as data (`InterviewPage.Questions`). Showing them is not modelled.
