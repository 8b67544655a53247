/**
 * The live mock-interview room. Mounting the page requests camera and
 * microphone; when the request resolves, a recorder and a one-second
 * interval start. The displayed time is recomputed from the wall clock on
 * every tick. "End Interview" stops the recorder, the interval and the
 * preview's tracks; unmounting the page clears only the interval.
 */
module Room {
  import opened Common
  import opened Media
  import opened TimeFormat

  /** The `MediaRecorder` held in `mediaRecorderRef`: none yet, or one that is recording or stopped. */
  datatype Recorder = NoRecorder | Recorder(recording: bool)

  /** The interval held in `timerRef`: none yet, or one started at `startTime` that is live or cleared. */
  datatype Timer = NoTimer | Interval(startTime: int, live: bool)

  /** `Math.floor((Date.now() - startTime) / 1000)`, the seconds shown after a tick at `now` milliseconds. */
  function Elapsed(startTime: int, now: int): (e: int)
    ensures e * 1000 <= now - startTime < e * 1000 + 1000
    ensures now >= startTime ==> e >= 0
  {
    (now - startTime) / 1000
  }

  /** The shown time never goes down while the clock does not go back. */
  lemma ElapsedMonotone(startTime: int, now: int, later: int)
    requires now <= later
    ensures Elapsed(startTime, now) <= Elapsed(startTime, later)
  {
  }

  /** The seconds shown track the clock: after `k` whole seconds have passed since the start, `k` is shown. */
  lemma ElapsedWholeSeconds(startTime: int, k: nat, extra: int)
    requires 0 <= extra < 1000
    ensures Elapsed(startTime, startTime + 1000 * k + extra) == k
  {
  }

  class InterviewRoom {
    var isRecording: bool
    var interviewTime: int
    var isAiSpeaking: bool
    var recorder: Recorder
    var timer: Timer
    /** The stream attached to the video element's `srcObject`, if any. */
    var preview: Option<Stream>
    /** The tracks the platform still holds open. */
    var liveTracks: set<TrackId>
    /** The `getUserMedia` request of `startInterview` has not resolved yet. */
    var acquisitionPending: bool
    /** The three-second "AI speaking" timeout has been scheduled and has not fired. */
    var aiTimeoutPending: bool
    var navigatedToResults: bool
    /**
     * The page is on screen. Once it is unmounted, `videoRef.current` is null,
     * its buttons are gone and React drops its state updates; the refs, the
     * timers and the tracks live on.
     */
    var mounted: bool
    /** Every track the platform has handed out so far: a new stream's tracks are never among them. */
    ghost var issued: set<TrackId>

    /**
     * A page that sees its recorder recording says so, and then a preview
     * stream is attached; a recorder exists exactly when an interval does.
     */
    ghost predicate Valid()
      reads this
    {
      (isRecording ==> recorder == Recorder(true) && preview.Some?) &&
      (mounted && recorder == Recorder(true) ==> isRecording) &&
      (recorder.Recorder? <==> timer.Interval?) &&
      (aiTimeoutPending ==> recorder.Recorder?) &&
      liveTracks <= issued &&
      (preview.Some? ==> TracksOf(preview.value) <= issued)
    }

    /** Mounting the page: the initial state, and the mount effect's call to `startInterview` requesting media. */
    constructor (live: set<TrackId>)
      ensures Valid()
      ensures !isRecording && interviewTime == 0 && isAiSpeaking
      ensures recorder == NoRecorder && timer == NoTimer && preview == None
      ensures liveTracks == live && acquisitionPending && !aiTimeoutPending && !navigatedToResults
      ensures mounted && issued == live
    {
      isRecording := false;
      interviewTime := 0;
      isAiSpeaking := true;
      recorder := NoRecorder;
      timer := NoTimer;
      preview := None;
      liveTracks := live;
      acquisitionPending := true;
      aiTimeoutPending := false;
      navigatedToResults := false;
      mounted := true;
      issued := live;
    }

    /**
     * The media request of `startInterview` resolves at `now`, with fresh tracks
     * on success. Then a recorder starts, the interval starts from `now` and the
     * AI-speaking timeout is scheduled, whether or not the page is still mounted;
     * only a mounted page attaches the stream to its video element and shows
     * that it is recording. On failure the error is only logged.
     */
    method AcquisitionResolved(outcome: Option<Stream>, now: int)
      requires Valid() && acquisitionPending
      requires outcome.Some? ==> TracksOf(outcome.value) !! issued
      modifies this
      ensures Valid() && !acquisitionPending
      ensures outcome.Some? ==>
        && recorder == Recorder(true) && timer == Interval(now, true) && aiTimeoutPending
        && liveTracks == old(liveTracks) + TracksOf(outcome.value)
        && issued == old(issued) + TracksOf(outcome.value)
      ensures outcome.Some? && old(mounted) ==> isRecording && preview == outcome
      ensures outcome.None? ==>
        && recorder == old(recorder) && timer == old(timer) && liveTracks == old(liveTracks)
        && aiTimeoutPending == old(aiTimeoutPending) && issued == old(issued)
      ensures outcome.None? || !old(mounted) ==> isRecording == old(isRecording) && preview == old(preview)
      ensures interviewTime == old(interviewTime) && isAiSpeaking == old(isAiSpeaking)
      ensures navigatedToResults == old(navigatedToResults) && mounted == old(mounted)
    {
      acquisitionPending := false;
      match outcome {
        case Some(stream) =>
          liveTracks := liveTracks + TracksOf(stream);
          issued := issued + TracksOf(stream);
          if mounted {
            preview := Some(stream);
            isRecording := true;
          }
          recorder := Recorder(true);
          timer := Interval(now, true);
          aiTimeoutPending := true;
        case None =>
      }
    }

    /**
     * The interval fires at `now`: a mounted page recomputes the shown time from
     * the clock rather than incrementing it; an unmounted one drops the update.
     */
    method Tick(now: int)
      requires Valid() && timer.Interval? && timer.live
      modifies this`interviewTime
      ensures Valid()
      ensures interviewTime == if mounted then Elapsed(timer.startTime, now) else old(interviewTime)
    {
      if mounted {
        interviewTime := Elapsed(timer.startTime, now);
      }
    }

    /** The three-second timeout fires: the interviewer stops speaking, for good. */
    method AiTimeoutFires()
      requires Valid() && aiTimeoutPending
      modifies this`isAiSpeaking, this`aiTimeoutPending
      ensures Valid() && !aiTimeoutPending
      ensures isAiSpeaking == (old(isAiSpeaking) && !mounted)
    {
      if mounted {
        isAiSpeaking := false;
      }
      aiTimeoutPending := false;
    }

    /**
     * `finishInterview` ("End Interview", on screen only while mounted): only
     * with a recorder that is recording. Stops the recorder, clears the
     * interval, stops every preview track and navigates to the results page.
     * Otherwise nothing happens.
     */
    method FinishInterview()
      requires Valid()
      modifies this
      ensures Valid()
      ensures old(mounted && isRecording) ==>
        && !isRecording && recorder == Recorder(false)
        && timer == old(timer).(live := false)
        && liveTracks == old(liveTracks) - TracksOf(old(preview).value)
        && navigatedToResults
      ensures !old(mounted && isRecording) ==>
        isRecording == old(isRecording) && recorder == old(recorder) && timer == old(timer)
        && liveTracks == old(liveTracks) && navigatedToResults == old(navigatedToResults)
      ensures preview == old(preview) && interviewTime == old(interviewTime)
      ensures isAiSpeaking == old(isAiSpeaking) && aiTimeoutPending == old(aiTimeoutPending)
      ensures acquisitionPending == old(acquisitionPending) && mounted == old(mounted) && issued == old(issued)
    {
      if mounted && recorder.Recorder? && isRecording {
        recorder := Recorder(false);
        isRecording := false;
        if timer.Interval? {
          timer := timer.(live := false);
        }
        if preview.Some? {
          liveTracks := StopTracks(liveTracks, preview.value);
        }
        navigatedToResults := true;
      }
    }

    /** The mount effect's cleanup: clears the interval and nothing else; the page is gone. */
    method Unmount()
      requires Valid() && mounted
      modifies this`timer, this`mounted
      ensures Valid() && !mounted
      ensures timer == if old(timer).Interval? then old(timer).(live := false) else old(timer)
    {
      if timer.Interval? {
        timer := timer.(live := false);
      }
      mounted := false;
    }

    /** The header and the video overlay show the counter as `MM:SS`; a count that is not negative reads back. */
    function ShownTime(): (shown: string)
      reads this
      ensures interviewTime >= 0 ==> ParseTime(shown) == Some(interviewTime)
    {
      var t := FormatTime(interviewTime);
      assert interviewTime >= 0 ==> ParseTime(t) == Some(interviewTime) by {
        if interviewTime >= 0 {
          FormatTimeRoundTrip(interviewTime);
        }
      }
      t
    }
  }

  /**
   * A finished interview cannot be finished again: the second "End Interview"
   * changes nothing. Before finishing, the header reads back the seconds since the start.
   */
  method FinishTwiceScenario(stream: Stream, start: int, now: int)
    returns (shown: string, tracksAfterFirst: set<TrackId>, tracksAfterSecond: set<TrackId>, recorded: bool)
    requires start <= now
    ensures ParseTime(shown) == Some(Elapsed(start, now))
    ensures tracksAfterFirst == {} && tracksAfterSecond == {}
    ensures !recorded
  {
    var room := new InterviewRoom({});
    room.AcquisitionResolved(Some(stream), start);
    room.Tick(now);
    shown := room.ShownTime();
    room.FinishInterview();
    tracksAfterFirst := room.liveTracks;
    room.FinishInterview();
    tracksAfterSecond := room.liveTracks;
    recorded := room.isRecording;
  }

  /**
   * Leaving the page before the media request resolves: the cleanup has already
   * run, so the recorder, the interval and the tracks started afterwards stay
   * live, no preview shows them, and no "End Interview" can stop them.
   */
  method UnmountBeforeAcquisitionScenario(stream: Stream, now: int)
    returns (recorderRecording: bool, timerLive: bool, tracks: set<TrackId>, attached: bool)
    ensures recorderRecording && timerLive && !attached
    ensures tracks == TracksOf(stream)
  {
    var room := new InterviewRoom({});
    room.Unmount();
    room.AcquisitionResolved(Some(stream), now);
    room.FinishInterview();
    recorderRecording := room.recorder == Recorder(true);
    timerLive := room.timer.Interval? && room.timer.live;
    tracks := room.liveTracks;
    attached := room.preview.Some?;
  }

  /**
   * Leaving the page in the middle of an interview: the cleanup clears the
   * interval, but the recorder keeps recording and the camera and microphone stay live.
   */
  method UnmountWhileRecordingScenario(stream: Stream, now: int)
    returns (recorderRecording: bool, timerLive: bool, tracks: set<TrackId>)
    ensures recorderRecording && !timerLive
    ensures tracks == TracksOf(stream)
  {
    var room := new InterviewRoom({});
    room.AcquisitionResolved(Some(stream), now);
    room.Unmount();
    recorderRecording := room.recorder == Recorder(true);
    timerLive := room.timer.Interval? && room.timer.live;
    tracks := room.liveTracks;
  }

  /** A failed media request leaves the room idle: no recorder, no interval, nothing to finish. */
  method AcquisitionFailsScenario() returns (recording: bool, hasRecorder: bool, hasTimer: bool, navigated: bool)
    ensures !recording && !hasRecorder && !hasTimer && !navigated
  {
    var room := new InterviewRoom({});
    room.AcquisitionResolved(None, 0);
    room.FinishInterview();
    recording := room.isRecording;
    hasRecorder := room.recorder.Recorder?;
    hasTimer := room.timer.Interval?;
    navigated := room.navigatedToResults;
  }
}
