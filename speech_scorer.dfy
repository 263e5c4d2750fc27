/**
 * The speech scorer: the pace and vocal-variety classes of a final
 * transcript, the clarity and confidence formulas, the feedback bands, and
 * the component state that recognition results update.
 */
module SpeechScorer {
  import opened Common
  import opened SpeechText

  // ------------------------------------------------------------------ pace

  /** The average speaking rate the pace is compared with, in words per minute. */
  const AverageWordsPerMinute: real := 150.0

  /** A result is taken to span five seconds, so a minute holds twelve of them. */
  function EstimatedWordsPerMinute(wordCount: nat): real {
    (wordCount * 12) as real
  }

  datatype Rate = Normal | TooFast | SlightlyFast | TooSlow | SlightlySlow

  /** The status strings the component shows. */
  function RateLabel(r: Rate): string {
    match r
    case Normal => "Normal"
    case TooFast => "Too Fast"
    case SlightlyFast => "Slightly Fast"
    case TooSlow => "Too Slow"
    case SlightlySlow => "Slightly Slow"
  }

  /** Slowest first. */
  function Pace(r: Rate): nat {
    match r
    case TooSlow => 0
    case SlightlySlow => 1
    case Normal => 2
    case SlightlyFast => 3
    case TooFast => 4
  }

  /**
   * The rate class of a transcript of `wordCount` words. The strict
   * comparisons against 195, 165, 105 and 135 words per minute fall between
   * multiples of twelve, so each class is a range of word counts.
   */
  function RateClass(wordCount: nat): (r: Rate)
    ensures r == TooFast <==> wordCount >= 17
    ensures r == SlightlyFast <==> 14 <= wordCount <= 16
    ensures r == Normal <==> 12 <= wordCount <= 13
    ensures r == SlightlySlow <==> 9 <= wordCount <= 11
    ensures r == TooSlow <==> wordCount <= 8
  {
    var wpm := EstimatedWordsPerMinute(wordCount);
    if wpm > AverageWordsPerMinute * 1.3 then TooFast
    else if wpm > AverageWordsPerMinute * 1.1 then SlightlyFast
    else if wpm < AverageWordsPerMinute * 0.7 then TooSlow
    else if wpm < AverageWordsPerMinute * 0.9 then SlightlySlow
    else Normal
  }

  /** More words in the same span never give a slower class. */
  lemma RateClassMonotone(a: nat, b: nat)
    requires a <= b
    ensures Pace(RateClass(a)) <= Pace(RateClass(b))
  {
  }

  /**
   * The status strings tell the classes apart, so the clarity switch on the
   * string is a switch on the class.
   */
  lemma RateLabelsDistinct(a: Rate, b: Rate)
    ensures RateLabel(a) == RateLabel(b) <==> a == b
  {
  }

  // --------------------------------------------------------- vocal variety

  datatype Variety = Good | Moderate | Limited

  function VarietyLabel(v: Variety): string {
    match v
    case Good => "Good"
    case Moderate => "Moderate"
    case Limited => "Limited"
  }

  function VarietyRank(v: Variety): nat {
    match v
    case Limited => 0
    case Moderate => 1
    case Good => 2
  }

  /** Recognition confidence stands in for vocal variety. */
  function VocalVariety(rawConfidence: real): (v: Variety)
    ensures v == Good <==> rawConfidence > 0.8
    ensures v == Limited <==> rawConfidence < 0.5
    ensures v == Moderate <==> 0.5 <= rawConfidence <= 0.8
  {
    if rawConfidence > 0.8 then Good
    else if rawConfidence < 0.5 then Limited
    else Moderate
  }

  lemma VocalVarietyMonotone(a: real, b: real)
    requires a <= b
    ensures VarietyRank(VocalVariety(a)) <= VarietyRank(VocalVariety(b))
  {
  }

  /** The variety strings tell the classes apart. */
  lemma VarietyLabelsDistinct(a: Variety, b: Variety)
    ensures VarietyLabel(a) == VarietyLabel(b) <==> a == b
  {
  }

  // --------------------------------------------------------------- clarity

  /** `rateScore` of `calculateClarityScore`: steady speech scores highest. */
  function RateScore(r: Rate): (s: real)
    ensures 0.3 <= s <= 0.7
    ensures s == 0.7 <==> r == Normal
  {
    match r
    case Normal => 0.7
    case TooFast => 0.3
    case SlightlyFast => 0.5
    case SlightlySlow => 0.6
    case TooSlow => 0.4
  }

  /** `calculateClarityScore`: pace weighs 0.7 and recognition confidence 0.3. */
  function ClarityScore(rate: Rate, rawConfidence: real): (clarity: real)
    ensures InUnit(rawConfidence) ==> 0.21 <= clarity <= 0.79
  {
    RateScore(rate) * 0.7 + rawConfidence * 0.3
  }

  /** For a given recognition confidence a normal pace is clearer than any other. */
  lemma NormalPaceIsClearest(rate: Rate, rawConfidence: real)
    ensures ClarityScore(rate, rawConfidence) <= ClarityScore(Normal, rawConfidence)
    ensures ClarityScore(rate, rawConfidence) == ClarityScore(Normal, rawConfidence) <==> rate == Normal
  {
  }

  /** Clarity grows with recognition confidence, at a third of its rate. */
  lemma ClarityGrowsWithConfidence(rate: Rate, a: real, b: real)
    requires a <= b
    ensures ClarityScore(rate, b) - ClarityScore(rate, a) == 0.3 * (b - a)
  {
  }

  /**
   * With a confidence of at most 1, only a normal or slightly slow pace can
   * reach the green clarity band; a too fast pace stays red below a
   * confidence of 0.3.
   */
  lemma ClarityBands(rate: Rate, rawConfidence: real)
    requires rawConfidence <= 1.0
    ensures LiveColorClass(ClarityScore(rate, rawConfidence)) == Green ==>
      rate == Normal || rate == SlightlySlow
    ensures rate == TooFast && rawConfidence < 0.3 ==>
      LiveColorClass(ClarityScore(rate, rawConfidence)) == Red
  {
  }

  // ------------------------------------------------------------ confidence

  /** A filler ratio reaches a tenth exactly when ten times the fillers reach the word count. */
  lemma TenthOfWords(f: nat, w: nat)
    requires w > 0
    ensures f as real / w as real * 10.0 >= 1.0 <==> 10 * f >= w
  {
    var r, wr := f as real / w as real, w as real;
    assert r * wr == f as real;
    if r * 10.0 >= 1.0 {
      assert (r * 10.0 - 1.0) * wr >= 0.0;
    } else {
      assert (1.0 - r * 10.0) * wr > 0.0;
    }
  }

  /** Division by a positive word count keeps the order of filler counts. */
  lemma RatioMonotone(f: nat, g: nat, w: nat)
    requires f <= g && w > 0
    ensures f as real / w as real <= g as real / w as real
  {
    var wr := w as real;
    assert (g as real / wr - f as real / wr) * wr == g as real - f as real;
  }

  /** `fillerScore`: ten per cent fillers or more scores nothing; no words count as no fillers. */
  function FillerScore(fillerCount: nat, wordCount: nat): (score: real)
    ensures InUnit(score)
    ensures wordCount == 0 || fillerCount == 0 ==> score == 1.0
    ensures wordCount > 0 ==> (score == 0.0 <==> 10 * fillerCount >= wordCount)
  {
    var fillerRatio := if wordCount > 0 then fillerCount as real / wordCount as real else 0.0;
    if wordCount > 0 then
      TenthOfWords(fillerCount, wordCount);
      Max(0.0, 1.0 - fillerRatio * 10.0)
    else
      Max(0.0, 1.0 - fillerRatio * 10.0)
  }

  /** More fillers in the same number of words never raise the filler score. */
  lemma FillerScoreAntitone(f: nat, g: nat, wordCount: nat)
    requires f <= g
    ensures FillerScore(g, wordCount) <= FillerScore(f, wordCount)
  {
    if wordCount > 0 {
      RatioMonotone(f, g, wordCount);
    }
  }

  /** `calculateConfidenceScore`: the filler score weighs 0.6 and recognition confidence 0.4. */
  function ConfidenceScore(fillerCount: nat, rawConfidence: real, wordCount: nat): (confidence: real)
    ensures InUnit(rawConfidence) ==> InUnit(confidence)
    ensures wordCount == 0 || fillerCount == 0 ==> confidence == 0.6 + 0.4 * rawConfidence
    ensures wordCount > 0 && 10 * fillerCount >= wordCount ==> confidence == 0.4 * rawConfidence
  {
    FillerScore(fillerCount, wordCount) * 0.6 + rawConfidence * 0.4
  }

  lemma ConfidenceFillerAntitone(f: nat, g: nat, rawConfidence: real, wordCount: nat)
    requires f <= g
    ensures ConfidenceScore(g, rawConfidence, wordCount) <= ConfidenceScore(f, rawConfidence, wordCount)
  {
    FillerScoreAntitone(f, g, wordCount);
  }

  /**
   * The word count of a transcript is never zero, so the divide-by-zero guard
   * of the confidence formula never fires from the transcript analysis.
   */
  lemma TranscriptWordCountPositive(transcript: string)
    ensures WordCount(transcript) == 1 + SpaceRuns(transcript, false)
    ensures WordCount(transcript) > 0
  {
    WordCountIsRunsPlusOne(transcript);
  }

  // -------------------------------------------------------------- display

  const ClarityTiers := Tiers(
    "Try to speak more clearly and at a moderate pace",
    "Your speech is relatively clear but could improve",
    "Excellent speech clarity and articulation")

  const ConfidenceTiers := Tiers(
    "Work on speaking more confidently and reducing filler words",
    "Your confidence is growing but could be stronger",
    "You sound very confident and assured")

  /** `getFeedback`: the sentence of the metric's tier; the tiers are the 0.3 / 0.7 colour bands. */
  function Feedback(metric: string, value: real): (r: string)
    ensures metric == "clarity" ==> r == Pick(ClarityTiers, LiveColorClass(value))
    ensures metric == "confidence" ==> r == Pick(ConfidenceTiers, LiveColorClass(value))
    ensures metric != "clarity" && metric != "confidence" ==> r == ""
  {
    if metric == "clarity" then
      if value < 0.3 then ClarityTiers.low
      else if value < 0.7 then ClarityTiers.mid
      else ClarityTiers.high
    else if metric == "confidence" then
      if value < 0.3 then ConfidenceTiers.low
      else if value < 0.7 then ConfidenceTiers.mid
      else ConfidenceTiers.high
    else ""
  }

  // ---------------------------------------------------------------- state

  /** The scores handed to the parent page after a final result. */
  datatype SpeechUpdate = SpeechUpdate(clarity: real, confidence: real)

  /** The scores a final transcript with the given recognition confidence yields. */
  function TranscriptScores(transcript: string, rawConfidence: real): (u: SpeechUpdate)
    ensures InUnit(rawConfidence) ==> InUnit(u.clarity) && InUnit(u.confidence)
    ensures u.clarity == ClarityScore(RateClass(WordCount(transcript)), rawConfidence)
    ensures u.confidence == ConfidenceScore(FillerTotal(transcript), rawConfidence, WordCount(transcript))
  {
    var wordCount := WordCount(transcript);
    SpeechUpdate(ClarityScore(RateClass(wordCount), rawConfidence),
                 ConfidenceScore(FillerTotal(transcript), rawConfidence, wordCount))
  }

  /** The state of the speech panel that recognition results change. */
  class SpeechAnalyzer {
    var transcripts: seq<string>
    var currentTranscript: string
    var fillerWordCount: nat
    var speechRate: Rate
    var vocalVariety: Variety

    constructor ()
      ensures transcripts == [] && currentTranscript == "" && fillerWordCount == 0
      ensures speechRate == Normal && vocalVariety == Moderate
    {
      transcripts := [];
      currentTranscript := "";
      fillerWordCount := 0;
      speechRate := Normal;
      vocalVariety := Moderate;
    }

    /**
     * `analyzeTranscript`: adds the transcript's fillers to the running tally,
     * records its pace and variety classes, and returns its two scores.
     */
    method AnalyzeTranscript(transcript: string, rawConfidence: real) returns (update: SpeechUpdate)
      modifies this
      ensures fillerWordCount == old(fillerWordCount) + FillerTotal(transcript)
      ensures speechRate == RateClass(WordCount(transcript))
      ensures vocalVariety == VocalVariety(rawConfidence)
      ensures transcripts == old(transcripts) && currentTranscript == old(currentTranscript)
      ensures update == TranscriptScores(transcript, rawConfidence)
    {
      var fillerCount := CountFillers(transcript);
      fillerWordCount := fillerWordCount + fillerCount;
      var wordCount := WordCount(transcript);
      speechRate := RateClass(wordCount);
      vocalVariety := VocalVariety(rawConfidence);
      update := SpeechUpdate(ClarityScore(speechRate, rawConfidence),
                             ConfidenceScore(fillerCount, rawConfidence, wordCount));
    }

    /**
     * `onresult`: a final result is appended to the transcripts, clears the
     * interim text and is scored; an interim result only replaces the
     * interim text.
     */
    method OnResult(transcript: string, rawConfidence: real, isFinal: bool)
      returns (update: Option<SpeechUpdate>)
      modifies this
      ensures isFinal ==>
        transcripts == old(transcripts) + [transcript] && currentTranscript == "" &&
        fillerWordCount == old(fillerWordCount) + FillerTotal(transcript) &&
        speechRate == RateClass(WordCount(transcript)) &&
        vocalVariety == VocalVariety(rawConfidence) &&
        update == Some(TranscriptScores(transcript, rawConfidence))
      ensures !isFinal ==>
        transcripts == old(transcripts) && currentTranscript == transcript &&
        fillerWordCount == old(fillerWordCount) && speechRate == old(speechRate) &&
        vocalVariety == old(vocalVariety) && update == None
      ensures fillerWordCount >= old(fillerWordCount)
      ensures |transcripts| >= |old(transcripts)| && transcripts[..|old(transcripts)|] == old(transcripts)
    {
      if isFinal {
        transcripts := transcripts + [transcript];
        currentTranscript := "";
        var scores := AnalyzeTranscript(transcript, rawConfidence);
        update := Some(scores);
      } else {
        currentTranscript := transcript;
        update := None;
      }
    }
  }
}
