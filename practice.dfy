/**
 * The practice page: a bank of five questions, a recording flag and a
 * session counter. "Start Recording" starts a one-second interval that adds
 * one to the counter each time it fires; the function that would clear it is
 * returned to the click handler and dropped, so every interval ever started
 * stays live, through "Stop Recording" and question changes alike.
 */
module Practice {
  import opened Common
  import opened TimeFormat

  const Questions: seq<string> := [
    "Tell me about yourself and your background.",
    "What are your greatest strengths?",
    "Describe a challenging situation you faced at work and how you handled it.",
    "Where do you see yourself in 5 years?",
    "Why do you want to work at our company?"
  ]

  /** `questions.length`. */
  const QuestionCount: nat := |Questions|

  /** `(prev + 1) % questions.length`: the question after `i`, wrapping round to the first. */
  function NextIndex(i: int): (j: int)
    requires 0 <= i < QuestionCount
    ensures 0 <= j < QuestionCount
    ensures i < QuestionCount - 1 ==> j == i + 1
    ensures i == QuestionCount - 1 ==> j == 0
  {
    (i + 1) % QuestionCount
  }

  /** `k` presses of "Next Question" starting from `i`. */
  function NextTimes(i: int, k: nat): (j: int)
    requires 0 <= i < QuestionCount
    ensures 0 <= j < QuestionCount
  {
    if k == 0 then i else NextIndex(NextTimes(i, k - 1))
  }

  /** `k` presses move `k` places round the bank. */
  lemma {:induction false} NextTimesIsRotation(i: int, k: nat)
    requires 0 <= i < QuestionCount
    ensures NextTimes(i, k) == (i + k) % QuestionCount
  {
    if k > 0 {
      NextTimesIsRotation(i, k - 1);
    }
  }

  /** Five presses of "Next Question" come back to the question one started from. */
  lemma NextFiveTimesReturns(i: int)
    requires 0 <= i < QuestionCount
    ensures NextTimes(i, QuestionCount) == i
    ensures forall k :: 0 < k < QuestionCount ==> NextTimes(i, k) != i
  {
    NextTimesIsRotation(i, QuestionCount);
    forall k | 0 < k < QuestionCount ensures NextTimes(i, k) != i {
      NextTimesIsRotation(i, k);
    }
  }

  /** "Question {currentQuestion + 1} of {questions.length}". */
  function QuestionNumber(i: int): (n: int)
    requires 0 <= i < QuestionCount
    ensures 1 <= n <= QuestionCount
    ensures n - 1 == i
  {
    i + 1
  }

  /** The bank button's preview: `question.substring(0, 60)` followed by "..." in every case. */
  function Preview(q: string): (r: string)
    ensures |r| == (if |q| < 60 then |q| else 60) + 3
    ensures r[|r| - 3..] == "..."
    ensures r[..|r| - 3] <= q
    ensures |q| <= 60 ==> r == q + "..."
  {
    (if |q| < 60 then q else q[..60]) + "..."
  }

  class PracticeSession {
    var isRecording: bool
    var sessionTime: int
    var currentQuestion: int
    /** Intervals started by "Start Recording" that were never cleared (all of them). */
    var liveIntervals: nat

    ghost predicate Valid()
      reads this
    {
      0 <= currentQuestion < QuestionCount && sessionTime >= 0
    }

    constructor ()
      ensures Valid()
      ensures !isRecording && sessionTime == 0 && currentQuestion == 0 && liveIntervals == 0
    {
      isRecording := false;
      sessionTime := 0;
      currentQuestion := 0;
      liveIntervals := 0;
    }

    /** "Start Recording", shown only while not recording: sets the flag and starts one more interval. */
    method ClickStart()
      requires Valid()
      modifies this
      ensures Valid()
      ensures !old(isRecording) ==> isRecording && liveIntervals == old(liveIntervals) + 1
      ensures old(isRecording) ==> isRecording && liveIntervals == old(liveIntervals)
      ensures sessionTime == old(sessionTime) && currentQuestion == old(currentQuestion)
    {
      if !isRecording {
        isRecording := true;
        liveIntervals := liveIntervals + 1;
      }
    }

    /** "Stop Recording", shown only while recording: clears the flag and the counter, but no interval. */
    method ClickStop()
      requires Valid()
      modifies this
      ensures Valid()
      ensures old(isRecording) ==> !isRecording && sessionTime == 0
      ensures !old(isRecording) ==> !isRecording && sessionTime == old(sessionTime)
      ensures currentQuestion == old(currentQuestion) && liveIntervals == old(liveIntervals)
    {
      if isRecording {
        isRecording := false;
        sessionTime := 0;
      }
    }

    /** "Next Question", disabled while recording: moves on round the bank and resets the counter. */
    method ClickNext()
      requires Valid()
      modifies this
      ensures Valid()
      ensures !old(isRecording) ==>
        currentQuestion == NextIndex(old(currentQuestion)) && sessionTime == 0 && !isRecording
      ensures old(isRecording) ==>
        currentQuestion == old(currentQuestion) && sessionTime == old(sessionTime) && isRecording
      ensures liveIntervals == old(liveIntervals)
    {
      if !isRecording {
        currentQuestion := NextIndex(currentQuestion);
        sessionTime := 0;
        isRecording := false;
      }
    }

    /** A question-bank button, disabled while recording: jumps to question `i` and resets the counter. */
    method ClickBankEntry(i: int)
      requires Valid() && 0 <= i < QuestionCount
      modifies this
      ensures Valid()
      ensures !old(isRecording) ==> currentQuestion == i && sessionTime == 0 && !isRecording
      ensures old(isRecording) ==>
        currentQuestion == old(currentQuestion) && sessionTime == old(sessionTime) && isRecording
      ensures liveIntervals == old(liveIntervals)
    {
      if !isRecording {
        currentQuestion := i;
        sessionTime := 0;
        isRecording := false;
      }
    }

    /** One of the live intervals fires: the counter goes up by one, whether recording or not. */
    method IntervalFires()
      requires Valid() && liveIntervals > 0
      modifies this`sessionTime
      ensures Valid()
      ensures sessionTime == old(sessionTime) + 1
    {
      sessionTime := sessionTime + 1;
    }

    /** The timer display, `MM:SS`, which reads back as the counter. */
    function ShownTime(): (shown: string)
      requires Valid()
      reads this
      ensures ParseTime(shown) == Some(sessionTime)
    {
      FormatTimeRoundTrip(sessionTime);
      FormatTime(sessionTime)
    }
  }

  /**
   * After Start then Stop the interval is still live: the next firing moves the
   * counter off zero, and the stopped page's display reads one second.
   */
  method TickAfterStopScenario() returns (recording: bool, time: int, intervals: nat, shown: string)
    ensures !recording && time == 1 && intervals == 1
    ensures ParseTime(shown) == Some(1)
  {
    var p := new PracticeSession();
    p.ClickStart();
    p.ClickStop();
    p.IntervalFires();
    recording, time, intervals := p.isRecording, p.sessionTime, p.liveIntervals;
    shown := p.ShownTime();
  }

  /** Each further Start adds another live interval; within one second the counter then rises by two. */
  method RestartScenario() returns (time: int, intervals: nat)
    ensures intervals == 2 && time == 2
  {
    var p := new PracticeSession();
    p.ClickStart();
    p.ClickStop();
    p.ClickStart();
    p.IntervalFires();
    p.IntervalFires();
    time, intervals := p.sessionTime, p.liveIntervals;
  }
}
