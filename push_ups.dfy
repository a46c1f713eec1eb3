/** Push-up counting from the elbow angle between wrist, elbow and shoulder (backend/analysis/push_ups.py). The counter starts in the 'up' phase, waiting for the elbow angle to drop below 90 degrees; a later angle above 160 degrees counts the rep.
    The pose estimator is not part of this model: its frames are the input,
    and `mediaPipeAvailable` says whether it could run at all. */
module PushUps {
  import opened Wrappers
  import opened AnalysisResult
  import opened RepCounter

  /** An angle below this arms the counter (arms bent, body down). */
  const DownThresh: real := 90.0
  /** An angle above this, once armed, counts a rep (arms straight again). */
  const UpThresh: real := 160.0

  /** The analyzer: no result without the pose estimator or without
      frames; otherwise the rep count as score and single attempt, and the
      clipped mean landmark confidence. */
  method AnalyzePushUps(mediaPipeAvailable: bool, frames: seq<Frame>) returns (out: Option<AnalysisDict>)
    ensures out.None? <==> !mediaPipeAvailable || frames == []
    ensures out.Some? ==>
              && out.value.score == Run(Angles(frames), DownThresh, UpThresh).reps as real
              && out.value.attempts == Some([out.value.score])
              && out.value.unit == "repetitions"
              && out.value.confidence == Some(Clip(Mean(Scores(frames))))
              && out.value.trace.None?
    ensures out.Some? ==> out.value.score <= (|frames| / 2) as real
    ensures out.Some? ==> 0.0 <= out.value.confidence.value <= 1.0
  {
    if !mediaPipeAvailable || |frames| == 0 {
      return None;
    }
    var reps: nat := 0;
    var phase := AwaitLow;
    var scores: seq<real> := [];
    for i := 0 to |frames|
      invariant Counter(phase, reps) == Run(Angles(frames[..i]), DownThresh, UpThresh)
      invariant scores == Scores(frames[..i])
    {
      var f := frames[i];
      assert Angles(frames[..i + 1])[..i] == Angles(frames[..i]);
      assert Scores(frames[..i + 1]) == Scores(frames[..i]) + [f.score];
      scores := scores + [f.score];
      var a := FrameAngle(f);
      if phase == AwaitLow && a < DownThresh {
        phase := AwaitHigh;
      } else if phase == AwaitHigh && a > UpThresh {
        reps := reps + 1;
        phase := AwaitLow;
      }
    }
    assert frames[..|frames|] == frames;
    RunBound(Angles(frames), DownThresh, UpThresh);
    var conf := Clip(Mean(scores));
    var score := reps as real;
    out := Some(AnalysisDict(score, "repetitions", Some([score]), Some(conf),
      Some(["Keep a straight line from head to heels", "Lower until elbows reach ~90° for full reps"]), None));
  }
}
