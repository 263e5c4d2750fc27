/**
 * The interview page's session controller: the stage machine
 * SETUP -> INTRO -> INTERVIEW -> RESULTS, the question index, the recording
 * flag, the start countdown and the performance record the analysis panels
 * report into.
 */
module InterviewPage {
  import opened Common
  import opened Performance

  datatype InterviewStage = Setup | Intro | Interview | Results

  const Questions: seq<string> := [
    "Tell me about yourself and your background.",
    "What are your greatest strengths and weaknesses?",
    "Why are you interested in this position?",
    "Describe a challenge you faced and how you overcame it.",
    "Where do you see yourself in five years?",
    "How do you handle stress and pressure?",
    "What questions do you have for me?"
  ]

  /** The countdown shown between the introduction and the first question, in ticks of a second. */
  const CountdownStart: int := 5

  class Session {
    var stage: InterviewStage
    var currentQuestionIndex: nat
    var isRecording: bool
    var countdown: int
    var performance: Record
    /** The media permissions were refused, which disables the start button for good. */
    var permissionRefused: bool

    /**
     * The question index names a question and the countdown stays within its
     * range; the session records exactly during the interview; every score
     * lies in [0, 1]. Before the interview the record is untouched; during it
     * the content relevance is the 0.5 seed plus a tenth per question, capped
     * at 1; on the results screen the overall score is the mean of the
     * sub-scores.
     */
    predicate Valid()
      reads this
    {
      currentQuestionIndex < |Questions| && 0 <= countdown <= CountdownStart &&
      (isRecording <==> stage == Interview) && AllInUnit(performance) &&
      ((stage == Setup || stage == Intro) ==> currentQuestionIndex == 0 && performance == Initial) &&
      (stage == Interview ==>
        performance.contentRelevance == Min(0.5 + 0.1 * currentQuestionIndex as real, 1.0)) &&
      (stage == Results ==> performance.overallScore == OverallScore(performance))
    }

    constructor ()
      ensures Valid()
      ensures stage == Setup && currentQuestionIndex == 0 && !isRecording && !permissionRefused
      ensures countdown == CountdownStart && performance == Initial
    {
      stage := Setup;
      currentQuestionIndex := 0;
      isRecording := false;
      countdown := CountdownStart;
      performance := Initial;
      permissionRefused := false;
    }

    /**
     * `startInterview`, the button of the setup screen, enabled until the
     * permissions have been refused once: a refusal only records itself;
     * otherwise the introduction runs a countdown from 5, one decrement per
     * tick, and the interview starts recording once it reaches 0, with the
     * content relevance seeded. Returns the number of ticks.
     */
    method StartInterview(permissionsGranted: bool) returns (ticks: nat)
      requires Valid() && stage == Setup && !permissionRefused
      modifies this
      ensures Valid()
      ensures permissionRefused == !permissionsGranted
      ensures !permissionsGranted ==>
        ticks == 0 && stage == Setup && !isRecording && countdown == old(countdown) &&
        performance == old(performance)
      ensures permissionsGranted ==>
        ticks == CountdownStart && stage == Interview && isRecording && countdown == 0 &&
        performance == Seeded(old(performance)) && performance.contentRelevance == 0.5
      ensures currentQuestionIndex == old(currentQuestionIndex)
    {
      if !permissionsGranted {
        permissionRefused := true;
        return 0;
      }
      stage := Intro;
      var count := CountdownStart;
      countdown := count;
      ticks := 0;
      var done := false;
      while !done
        invariant 0 <= count <= CountdownStart && countdown == count
        invariant ticks == CountdownStart - count
        invariant !done ==> count > 0 && stage == Intro && !isRecording
        invariant done ==> count == 0 && stage == Interview && isRecording
        invariant currentQuestionIndex == old(currentQuestionIndex) && performance == old(performance)
        invariant !permissionRefused
        decreases count, !done
      {
        count := count - 1;
        countdown := count;
        ticks := ticks + 1;
        if count <= 0 {
          stage := Interview;
          isRecording := true;
          done := true;
        }
      }
      SeedContentRelevance();
    }

    /**
     * The content-relevance effect, run on every render: once the interview
     * is on, an unset relevance is seeded with 0.5. In a valid session it
     * acts only on the first render of the interview.
     */
    method SeedContentRelevance()
      modifies this
      ensures stage == Interview ==> performance == Seeded(old(performance))
      ensures stage != Interview ==> performance == old(performance)
      ensures stage == old(stage) && currentQuestionIndex == old(currentQuestionIndex)
      ensures isRecording == old(isRecording) && countdown == old(countdown)
      ensures permissionRefused == old(permissionRefused)
      ensures old(Valid()) ==> performance == old(performance)
    {
      if stage == Interview {
        performance := Seeded(performance);
      }
    }

    /**
     * `nextQuestion`, the button of the interview screen: before the last
     * question, move on and step the content relevance; at the last question,
     * stop recording, show the results and compute the overall score.
     */
    method NextQuestion()
      requires Valid() && stage == Interview
      modifies this
      ensures Valid()
      ensures old(currentQuestionIndex) < |Questions| - 1 ==>
        currentQuestionIndex == old(currentQuestionIndex) + 1 &&
        performance == Advanced(old(performance)) &&
        stage == Interview && isRecording
      ensures old(currentQuestionIndex) == |Questions| - 1 ==>
        currentQuestionIndex == old(currentQuestionIndex) &&
        !isRecording && stage == Results &&
        performance == WithOverall(old(performance))
      ensures countdown == old(countdown) && permissionRefused == old(permissionRefused)
    {
      if currentQuestionIndex < |Questions| - 1 {
        currentQuestionIndex := currentQuestionIndex + 1;
        performance := Advanced(performance);
      } else {
        // The page sets the three in one batch; the report comes first here
        // so that it runs on a session that is still valid.
        GenerateFinalReport();
        isRecording := false;
        stage := Results;
      }
    }

    /**
     * `generateFinalReport`. The page computes the mean from the record of the
     * last render rather than from the pending one; with the handlers applied
     * one at a time, as here, the two are the same record.
     */
    method GenerateFinalReport()
      requires Valid() && stage == Interview
      modifies this
      ensures Valid()
      ensures performance == WithOverall(old(performance))
      ensures stage == old(stage) && currentQuestionIndex == old(currentQuestionIndex)
      ensures isRecording == old(isRecording) && countdown == old(countdown)
      ensures permissionRefused == old(permissionRefused)
    {
      performance := WithOverall(performance);
    }

    /** `handleFacialDataUpdate`, wired to the facial panel shown during the interview. */
    method HandleFacialDataUpdate(eyeContact: real, facialExpressions: real)
      requires Valid() && stage == Interview
      requires InUnit(eyeContact) && InUnit(facialExpressions)
      modifies this
      ensures Valid()
      ensures performance == WithFacial(old(performance), eyeContact, facialExpressions)
      ensures stage == old(stage) && currentQuestionIndex == old(currentQuestionIndex)
      ensures isRecording == old(isRecording) && countdown == old(countdown)
      ensures permissionRefused == old(permissionRefused)
    {
      performance := WithFacial(performance, eyeContact, facialExpressions);
    }

    /** `handleSpeechDataUpdate`, wired to the speech panel shown during the interview. */
    method HandleSpeechDataUpdate(clarity: real, confidence: real)
      requires Valid() && stage == Interview
      requires InUnit(clarity) && InUnit(confidence)
      modifies this
      ensures Valid()
      ensures performance == WithSpeech(old(performance), clarity, confidence)
      ensures stage == old(stage) && currentQuestionIndex == old(currentQuestionIndex)
      ensures isRecording == old(isRecording) && countdown == old(countdown)
      ensures permissionRefused == old(permissionRefused)
    {
      performance := WithSpeech(performance, clarity, confidence);
    }
  }
}
