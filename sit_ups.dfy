/** Sit-up counting from the hip angle between shoulder, hip and knee (backend/analysis/sit_ups.py). The counter starts in the 'down' phase, waiting for the torso angle to drop below 60 degrees; a later angle above 100 degrees counts the rep.
    The pose estimator is not part of this model: its frames are the input,
    and `mediaPipeAvailable` says whether it could run at all. */
module SitUps {
  import opened Wrappers
  import opened AnalysisResult
  import opened RepCounter

  /** An angle below this arms the counter (the torso is up). */
  const LowThresh: real := 60.0
  /** An angle above this, once armed, counts a rep (the torso is back down). */
  const HighThresh: real := 100.0

  /** The analyzer: no result without the pose estimator or without
      frames; otherwise the rep count as score and single attempt, and the
      clipped mean landmark confidence. */
  method AnalyzeSitUps(mediaPipeAvailable: bool, frames: seq<Frame>) returns (out: Option<AnalysisDict>)
    ensures out.None? <==> !mediaPipeAvailable || frames == []
    ensures out.Some? ==>
              && out.value.score == Run(Angles(frames), LowThresh, HighThresh).reps as real
              && out.value.attempts == Some([out.value.score])
              && out.value.unit == "repetitions"
              && out.value.confidence == Some(Clip(Mean(Scores(frames))))
              && out.value.trace.None?
    ensures out.Some? ==> out.value.score <= (|frames| / 2) as real
    ensures out.Some? ==> 0.0 <= out.value.confidence.value <= 1.0
  {
    if !mediaPipeAvailable || |frames| == 0 {
      return None;
    }
    var reps: nat := 0;
    var phase := AwaitLow;
    var scores: seq<real> := [];
    for i := 0 to |frames|
      invariant Counter(phase, reps) == Run(Angles(frames[..i]), LowThresh, HighThresh)
      invariant scores == Scores(frames[..i])
    {
      var f := frames[i];
      assert Angles(frames[..i + 1])[..i] == Angles(frames[..i]);
      assert Scores(frames[..i + 1]) == Scores(frames[..i]) + [f.score];
      scores := scores + [f.score];
      var a := FrameAngle(f);
      if phase == AwaitLow && a < LowThresh {
        phase := AwaitHigh;
      } else if phase == AwaitHigh && a > HighThresh {
        reps := reps + 1;
        phase := AwaitLow;
      }
    }
    assert frames[..|frames|] == frames;
    RunBound(Angles(frames), LowThresh, HighThresh);
    var conf := Clip(Mean(scores));
    var score := reps as real;
    out := Some(AnalysisDict(score, "repetitions", Some([score]), Some(conf),
      Some(["Keep feet anchored and avoid pulling the neck", "Use a steady pace for consistent counting"]), None));
  }
}
