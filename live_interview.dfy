/**
 * The live interview session: a fixed list of eight questions walked through
 * in order, a microphone toggle that simulates a transcript, a
 * pause-gated elapsed-seconds counter shown as MM:SS, and the two ways the
 * session ends (finishing the last question, or ending it outright), both of
 * which navigate to the report page.
 *
 * The one-second interval is the Tick event; the random language detection is
 * the boolean argument of HandleMicClick; navigation is recorded in navigatedTo.
 */
module LiveInterview {
  import opened Wrappers
  import opened JsString

  datatype QuestionType = Behavioral | Technical | Situational | Closing

  datatype Difficulty = Easy | Medium | Hard

  datatype Question = Question(text: string, kind: QuestionType, difficulty: Difficulty)

  const Questions: seq<Question> := [
    Question("Tell me about yourself and your experience in software development.", Behavioral, Easy),
    Question("Describe a challenging project you worked on and how you overcame obstacles.", Behavioral, Medium),
    Question("How do you approach debugging a complex issue in production?", Technical, Medium),
    Question("Tell me about a time when you had to work with a difficult team member.", Behavioral, Medium),
    Question("How would you design a scalable microservices architecture?", Technical, Hard),
    Question("What are your salary expectations and career goals for the next 5 years?", Situational, Medium),
    Question("How do you stay updated with the latest technology trends?", Behavioral, Easy),
    Question("Do you have any questions for us?", Closing, Easy)
  ]

  /** The text one stop of the microphone appends to the transcript. */
  const SimulatedUtterance: string :=
    " I believe that effective communication and collaboration are key to successful project delivery..."

  const InitialLanguages: seq<string> := ["EN"]

  /** What the simulated detector reports when it "hears" a second language. */
  const CodeSwitchedLanguages: seq<string> := ["EN", "HE"]

  const ReportRoute: string := "/reports/latest"

  // ---------------------------------------------------------------------------
  // formatTime
  // ---------------------------------------------------------------------------

  /** One clock field: the decimal digits of n, zero-padded to two. */
  function Field(n: nat): string {
    PadStart(NatToString(n), 2, '0')
  }

  /** Whole minutes and the remaining seconds, each zero-padded to two digits. */
  function FormatTime(seconds: nat): string {
    Field(seconds / 60) + ":" + Field(seconds % 60)
  }

  /** A field is at least two digits, exactly two below 100, and reads back as its number. */
  lemma FieldValue(n: nat)
    ensures |Field(n)| >= 2 && (n < 100 ==> |Field(n)| == 2)
    ensures AllDigits(Field(n)) && DecimalValue(Field(n)) == n
  {
    var s := NatToString(n);
    DecimalRoundTrip(n);
    NatToStringLength(n);
    if |s| < 2 {
      DecimalValueLeadingZeros(2 - |s|, s);
    }
  }

  /** The number before the last three characters of a clock text, when they are digits. */
  function MinutesField(r: string): Option<nat> {
    if |r| >= 3 && AllDigits(r[..|r| - 3]) then Some(DecimalValue(r[..|r| - 3])) else None
  }

  /** The number in the last two characters of a clock text, when they are digits. */
  function SecondsField(r: string): Option<nat> {
    if |r| >= 2 && AllDigits(r[|r| - 2..]) then Some(DecimalValue(r[|r| - 2..])) else None
  }

  /** Reads a clock text back into seconds: minutes, ':', two digits of seconds below 60. */
  function ReadClock(r: string): Option<nat> {
    if |r| >= 5 && r[|r| - 3] == ':' && MinutesField(r).Some? && SecondsField(r).Some? && SecondsField(r).value < 60
    then Some(MinutesField(r).value * 60 + SecondsField(r).value)
    else None
  }

  /** The fields of "m:s" for a two-character s. */
  lemma ClockParts(m: string, s: string)
    requires |m| >= 2 && |s| == 2 && AllDigits(m) && AllDigits(s)
    ensures var r := m + ":" + s;
            |r| >= 5 && r[|r| - 3] == ':'
            && MinutesField(r) == Some(DecimalValue(m)) && SecondsField(r) == Some(DecimalValue(s))
  {
    var r := m + ":" + s;
    assert r[..|r| - 3] == m;
    assert r[|r| - 2..] == s;
  }

  /**
   * The clock text has a minutes field of at least two digits, a colon and a
   * two-digit seconds field; they hold the whole minutes and the remaining
   * seconds.
   */
  lemma FormatTimeFields(seconds: nat)
    ensures |FormatTime(seconds)| >= 5 && FormatTime(seconds)[|FormatTime(seconds)| - 3] == ':'
    ensures MinutesField(FormatTime(seconds)) == Some(seconds / 60)
    ensures SecondsField(FormatTime(seconds)) == Some(seconds % 60)
  {
    var mins, secs := seconds / 60, seconds % 60;
    var m, s := Field(mins), Field(secs);
    assert |m| >= 2 && AllDigits(m) && DecimalValue(m) == mins by { FieldValue(mins); }
    assert |s| == 2 && AllDigits(s) && DecimalValue(s) == secs by { FieldValue(secs); }
    ClockParts(m, s);
  }

  /** Reading the clock text back gives the elapsed seconds: minutes * 60 + seconds. */
  lemma FormatTimeReadsBack(seconds: nat)
    ensures ReadClock(FormatTime(seconds)) == Some(seconds)
  {
    var mins, secs := seconds / 60, seconds % 60;
    assert mins * 60 + secs == seconds && secs < 60;
    assert ReadClock(FormatTime(seconds)) == Some(mins * 60 + secs) by {
      FormatTimeFields(seconds);
      ReadClockOfFields(FormatTime(seconds), mins, secs);
    }
  }

  lemma ReadClockOfFields(r: string, mins: nat, secs: nat)
    requires |r| >= 5 && r[|r| - 3] == ':' && secs < 60
    requires MinutesField(r) == Some(mins) && SecondsField(r) == Some(secs)
    ensures ReadClock(r) == Some(mins * 60 + secs)
  {
  }

  /** "m:s" for two two-digit fields is five characters, digits around a colon. */
  lemma ShortClockLayout(m: string, s: string)
    requires |m| == 2 && |s| == 2 && AllDigits(m) && AllDigits(s)
    ensures var r := m + ":" + s;
            && |r| == 5 && r[2] == ':'
            && forall i :: 0 <= i < 5 && i != 2 ==> IsDigit(r[i])
  {
    var r := m + ":" + s;
    forall i | 0 <= i < 5 && i != 2 ensures IsDigit(r[i]) {
      if i < 2 { assert r[i] == m[i]; } else { assert r[i] == s[i - 3]; }
    }
  }

  /** Below 100 minutes the clock is exactly five characters, MM:SS. */
  lemma FormatTimeShort(seconds: nat)
    requires seconds < 6000
    ensures |FormatTime(seconds)| == 5
    ensures FormatTime(seconds)[2] == ':'
    ensures forall i :: 0 <= i < 5 && i != 2 ==> IsDigit(FormatTime(seconds)[i])
  {
    var mins, secs := seconds / 60, seconds % 60;
    var m, s := Field(mins), Field(secs);
    assert |m| == 2 && AllDigits(m) by { FieldValue(mins); }
    assert |s| == 2 && AllDigits(s) by { FieldValue(secs); }
    ShortClockLayout(m, s);
  }

  // ---------------------------------------------------------------------------
  // The Next button
  // ---------------------------------------------------------------------------

  /** The Next button is disabled exactly when the transcript is empty past the first question. */
  predicate NextEnabled(transcript: string, currentQuestion: nat) {
    !(transcript == "" && currentQuestion > 0)
  }

  /**
   * The guard is asymmetric: the first question can be skipped with an empty
   * transcript, no later one can, and any non-empty transcript enables it.
   */
  lemma NextGuardAsymmetry(transcript: string, currentQuestion: nat)
    ensures NextEnabled("", 0)
    ensures currentQuestion > 0 ==> !NextEnabled("", currentQuestion)
    ensures transcript != "" ==> NextEnabled(transcript, currentQuestion)
  {
  }

  /** The label is "Finish Interview" exactly on the last question. */
  function NextLabel(currentQuestion: nat): (caption: string)
    ensures caption == "Finish Interview" <==> currentQuestion >= |Questions| - 1
    ensures caption == "Next Question" <==> currentQuestion < |Questions| - 1
    ensures currentQuestion < |Questions| ==> (caption == "Finish Interview" <==> currentQuestion == |Questions| - 1)
  {
    if currentQuestion < |Questions| - 1 then "Next Question" else "Finish Interview"
  }

  // ---------------------------------------------------------------------------
  // The session
  // ---------------------------------------------------------------------------

  class Session {
    var isRecording: bool
    var isPaused: bool
    var currentQuestion: nat
    var transcript: string
    var detectedLanguages: seq<string>
    var elapsedTime: nat
    var navigatedTo: Option<string>

    /** The question index names one of the questions; the detected tags are one of the two lists. */
    ghost predicate Valid()
      reads this
    {
      && currentQuestion < |Questions|
      && (detectedLanguages == InitialLanguages || detectedLanguages == CodeSwitchedLanguages)
    }

    constructor ()
      ensures Valid()
      ensures !isRecording && !isPaused && currentQuestion == 0 && transcript == ""
      ensures detectedLanguages == InitialLanguages && elapsedTime == 0 && navigatedTo == None
    {
      isRecording := false;
      isPaused := false;
      currentQuestion := 0;
      transcript := "";
      detectedLanguages := InitialLanguages;
      elapsedTime := 0;
      navigatedTo := None;
    }

    function Current(): Question
      reads this
      requires Valid()
    {
      Questions[currentQuestion]
    }

    function Clock(): string
      reads this
    {
      FormatTime(elapsedTime)
    }

    /** One firing of the one-second interval, which runs only while not paused. */
    method Tick()
      requires Valid()
      modifies this
      ensures Valid()
      ensures elapsedTime == if old(isPaused) then old(elapsedTime) else old(elapsedTime) + 1
      ensures isRecording == old(isRecording) && isPaused == old(isPaused)
      ensures currentQuestion == old(currentQuestion) && transcript == old(transcript)
      ensures detectedLanguages == old(detectedLanguages) && navigatedTo == old(navigatedTo)
    {
      if !isPaused {
        elapsedTime := elapsedTime + 1;
      }
    }

    /** The pause button: flips only the pause flag, which gates only the timer. */
    method TogglePause()
      requires Valid()
      modifies this
      ensures Valid()
      ensures isPaused == !old(isPaused)
      ensures isRecording == old(isRecording) && elapsedTime == old(elapsedTime)
      ensures currentQuestion == old(currentQuestion) && transcript == old(transcript)
      ensures detectedLanguages == old(detectedLanguages) && navigatedTo == old(navigatedTo)
    {
      isPaused := !isPaused;
    }

    /**
     * The microphone button. Stopping appends the simulated utterance, so the
     * transcript grows; starting leaves the transcript alone and may switch the
     * detected tags to EN and HE (secondLanguageDetected stands for the
     * random draw). Pausing does not block it.
     */
    method HandleMicClick(secondLanguageDetected: bool)
      requires Valid()
      modifies this
      ensures Valid()
      ensures isRecording == !old(isRecording)
      ensures old(isRecording) ==> transcript == old(transcript) + SimulatedUtterance
      ensures old(isRecording) ==> |transcript| > |old(transcript)|
      ensures old(isRecording) ==> detectedLanguages == old(detectedLanguages)
      ensures !old(isRecording) ==> transcript == old(transcript)
      ensures !old(isRecording) ==>
        detectedLanguages == (if secondLanguageDetected then CodeSwitchedLanguages else old(detectedLanguages))
      ensures isPaused == old(isPaused) && elapsedTime == old(elapsedTime)
      ensures currentQuestion == old(currentQuestion) && navigatedTo == old(navigatedTo)
    {
      if isRecording {
        isRecording := false;
        transcript := transcript + SimulatedUtterance;
      } else {
        isRecording := true;
        if secondLanguageDetected {
          detectedLanguages := CodeSwitchedLanguages;
        }
      }
    }

    /**
     * The Next/Finish button. Before the last question it moves to the next one,
     * clearing the transcript and stopping the microphone; on the last question
     * it keeps the index and navigates to the report. The clock is never reset.
     */
    method HandleNextQuestion()
      requires Valid()
      modifies this
      ensures Valid()
      ensures old(currentQuestion) < |Questions| - 1 ==>
        currentQuestion == old(currentQuestion) + 1 && transcript == "" && !isRecording
        && navigatedTo == old(navigatedTo)
      ensures old(currentQuestion) == |Questions| - 1 ==>
        currentQuestion == old(currentQuestion) && navigatedTo == Some(ReportRoute)
        && transcript == old(transcript) && isRecording == old(isRecording)
      ensures isPaused == old(isPaused) && elapsedTime == old(elapsedTime)
      ensures detectedLanguages == old(detectedLanguages)
    {
      if currentQuestion < |Questions| - 1 {
        currentQuestion := currentQuestion + 1;
        transcript := "";
        isRecording := false;
      } else {
        navigatedTo := Some(ReportRoute);
      }
    }

    /** The End button: navigates to the report whatever the session is doing. */
    method HandleEndSession()
      requires Valid()
      modifies this
      ensures Valid()
      ensures navigatedTo == Some(ReportRoute)
      ensures isRecording == old(isRecording) && isPaused == old(isPaused)
      ensures currentQuestion == old(currentQuestion) && transcript == old(transcript)
      ensures detectedLanguages == old(detectedLanguages) && elapsedTime == old(elapsedTime)
    {
      navigatedTo := Some(ReportRoute);
    }
  }

  /**
   * Answering every question: record an answer and press Next; the first seven
   * presses move on, the eighth navigates to the report. Returns how many
   * questions were shown and where the session went.
   */
  method AnswerEveryQuestion() returns (shown: seq<Question>, route: Option<string>)
    ensures shown == Questions && route == Some(ReportRoute)
  {
    var session := new Session();
    shown := [session.Current()];
    while session.navigatedTo == None
      invariant session.Valid()
      invariant shown == Questions[..session.currentQuestion + 1]
      invariant session.navigatedTo == None || (session.navigatedTo == Some(ReportRoute) && session.currentQuestion == 7)
      decreases 8 - session.currentQuestion, if session.navigatedTo == None then 1 else 0
    {
      session.HandleMicClick(false);
      if session.isRecording {
        session.HandleMicClick(false);
      }
      assert NextEnabled(session.transcript, session.currentQuestion);
      session.HandleNextQuestion();
      if session.navigatedTo == None {
        shown := shown + [session.Current()];
      }
    }
    route := session.navigatedTo;
  }

  /** Five ticks running, a pause, three ticks paused: the clock shows five seconds. */
  method PausedTicksScenario() returns (elapsed: nat, clock: string)
    ensures elapsed == 5 && clock == "00:05"
  {
    var session := new Session();
    for i := 0 to 5
      invariant session.Valid() && !session.isPaused && session.elapsedTime == i
    {
      session.Tick();
    }
    session.TogglePause();
    for i := 0 to 3
      invariant session.Valid() && session.isPaused && session.elapsedTime == 5
    {
      session.Tick();
    }
    elapsed := session.elapsedTime;
    clock := session.Clock();
    FiveSeconds();
  }

  lemma FiveSeconds()
    ensures FormatTime(5) == "00:05"
  {
    assert Field(0) == "00" by {
      assert NatToString(0) == "0";
      assert Repeat('0', 1) == "0";
    }
    assert Field(5) == "05" by {
      assert NatToString(5) == "5";
      assert Repeat('0', 1) == "0";
    }
  }
}
