/** The scoring service (backend/main.py): the size-based fallback
    analyzers, the dispatch between a real analyzer and its fallback, the
    `/analyze` endpoint's response and its rejection of unknown tests, and
    the runtime configuration that `/config` updates. The uploaded file is
    represented by its size in bytes; the clock by a number of seconds. */
module Backend {
  import opened Wrappers
  import JsValues
  import opened AnalysisResult

  /** The tests the service accepts and their display names. */
  const TestNames: map<string, string> := map[
    "vertical_jump" := "Vertical Jump Test",
    "push_ups" := "Push-ups Test",
    "sit_ups" := "Sit-ups Test",
    "flexibility" := "Flexibility Test"]

  /** Whole kibibytes of a file: `int(size / 1024)`. */
  function KiB(sizeBytes: nat): nat {
    sizeBytes / 1024
  }

  /** The three-attempt list of a distance test: one below, the score, and
      half below. The score is its maximum. */
  function DistanceAttempts(s: real): (attempts: seq<real>)
    ensures |attempts| == 3 && s in attempts
    ensures forall a :: a in attempts ==> a <= s
  {
    [s - 1.0, s, s - 0.5]
  }

  function VerticalJumpFallback(sizeBytes: nat): AnalysisDict {
    var s := (30 + KiB(sizeBytes) % 15) as real;
    AnalysisDict(s, "cm", Some(DistanceAttempts(s)), Some(0.9),
      Some(["Good takeoff form", "Consider improving arm swing for more lift"]), None)
  }

  function PushUpsFallback(sizeBytes: nat): AnalysisDict {
    var reps := (20 + KiB(sizeBytes) % 20) as real;
    AnalysisDict(reps, "repetitions", Some([reps]), Some(0.85),
      Some(["Maintain a straight line from head to heels", "Lower until elbows reach ~90° for full reps"]), None)
  }

  function SitUpsFallback(sizeBytes: nat): AnalysisDict {
    var reps := (25 + KiB(sizeBytes) % 20) as real;
    AnalysisDict(reps, "repetitions", Some([reps]), Some(0.9),
      Some(["Consistent range of motion", "Avoid pulling on the neck"]), None)
  }

  function FlexibilityFallback(sizeBytes: nat): AnalysisDict {
    var s := (10 + KiB(sizeBytes) % 8) as real;
    AnalysisDict(s, "cm", Some(DistanceAttempts(s)), Some(0.9),
      Some(["Smooth controlled reach", "Exhale during the reach for extra range"]), None)
  }

  /** The score range each fallback documents. */
  function FallbackRange(testId: string): (range: (int, int))
    ensures range.0 <= range.1
  {
    if testId == "push_ups" then (20, 39)
    else if testId == "sit_ups" then (25, 44)
    else if testId == "flexibility" then (10, 17)
    else (30, 44)
  }

  /** The fallback used for `testId`; any other id gets the vertical jump's. */
  function Fallback(testId: string, sizeBytes: nat): (d: AnalysisDict)
    ensures FallbackRange(testId).0 as real <= d.score <= FallbackRange(testId).1 as real
    ensures d.score == d.score.Floor as real
    ensures d.attempts.Some? && d.confidence.Some? && d.techniqueNotes.Some? && d.trace.None?
    ensures d.unit == (if testId in {"push_ups", "sit_ups"} then "repetitions" else "cm")
    ensures testId in {"push_ups", "sit_ups"} ==> d.attempts.value == [d.score]
    ensures testId !in {"push_ups", "sit_ups"} ==>
              |d.attempts.value| == 3 && d.score in d.attempts.value
              && forall a :: a in d.attempts.value ==> a <= d.score
    ensures d.confidence.value == (if testId == "push_ups" then 0.85 else 0.9)
  {
    if testId == "push_ups" then PushUpsFallback(sizeBytes)
    else if testId == "sit_ups" then SitUpsFallback(sizeBytes)
    else if testId == "flexibility" then FlexibilityFallback(sizeBytes)
    else VerticalJumpFallback(sizeBytes)
  }

  /** The ranges are exact: every whole score in a fallback's range is the
      score of some file size. */
  lemma FallbackRangeExact(testId: string, score: int)
    requires FallbackRange(testId).0 <= score <= FallbackRange(testId).1
    ensures Fallback(testId, (score - FallbackRange(testId).0) * 1024).score == score as real
  {
    var k := score - FallbackRange(testId).0;
    assert KiB(k * 1024) == k;
    if testId == "push_ups" || testId == "sit_ups" {
      assert k % 20 == k;
    } else if testId == "flexibility" {
      assert k % 8 == k;
    } else {
      assert k % 15 == k;
    }
  }

  /** `_dispatch_with_fallback`: a known test's real analyzer output is
      used when it is present, else that test's fallback. `analyzerOut` is what
      the real analyzer returned, `None` when it is not installed or found
      nothing. */
  function Dispatch(testId: string, sizeBytes: nat, analyzerOut: Option<AnalysisDict>): (d: AnalysisDict)
    ensures testId in TestNames && analyzerOut.Some? ==> d == analyzerOut.value
    ensures testId !in TestNames || analyzerOut.None? ==> d == Fallback(testId, sizeBytes)
  {
    if testId in TestNames && analyzerOut.Some? then analyzerOut.value else Fallback(testId, sizeBytes)
  }

  /** The body of a successful `/analyze` call. */
  datatype AnalysisResponse = AnalysisResponse(
    testId: string,
    testName: string,
    timestamp: nat,
    videoUri: Option<string>,
    score: real,
    unit: string,
    attempts: seq<real>,
    confidence: real,
    techniqueNotes: seq<string>,
    trace: Option<map<string, string>>)

  datatype HttpError = HttpError(status: nat, detail: string)

  /** Where a trace is written: `traces/<testId>_<seconds>.json`. */
  function TracePath(testId: string, now: nat): string {
    "traces/" + testId + "_" + JsValues.NatToString(now) + ".json"
  }

  /** The answer FastAPI gives to an exception the handler does not catch. */
  const InternalError := HttpError(500, "Internal Server Error")

  /** `/analyze` for an uploaded file of `sizeBytes` bytes at time `now`.
      `tracesRequested` is the form field, `configTraces` the configured
      flag, `writeOk` whether writing the trace file succeeded.
      `analyzerOut` is what the test's real analyzer did: `Err` when it
      raised, else its output as `Dispatch` receives it. The handler only
      has `try`/`finally`, so a raising analyzer becomes a 500. */
  function Analyze(testId: string, sizeBytes: nat, tracesRequested: bool, configTraces: bool,
                   analyzerOut: Result<Option<AnalysisDict>, string>, now: nat, writeOk: bool)
    : (r: Result<AnalysisResponse, HttpError>)
    ensures r.Err? && r.error.status == 400 <==> testId !in TestNames
    ensures testId !in TestNames ==> r == Err(HttpError(400, "Unsupported testId '" + testId + "'"))
    ensures testId in TestNames ==> (r.Err? <==> analyzerOut.Err?)
    ensures r.Err? && testId in TestNames ==> r.error == InternalError
    ensures r.Ok? ==>
              var d := Dispatch(testId, sizeBytes, analyzerOut.value);
              && r.value.testId == testId && r.value.testName == TestNames[testId]
              && r.value.timestamp == now && r.value.videoUri.None?
              && r.value.score == d.score && r.value.unit == d.unit
              && r.value.attempts == d.attempts.GetOr([])
              && r.value.confidence == d.confidence.GetOr(0.9)
              && r.value.techniqueNotes == d.techniqueNotes.GetOr([])
    ensures r.Ok? ==>
              var d := Dispatch(testId, sizeBytes, analyzerOut.value);
              if (tracesRequested || configTraces) && d.trace.Some? && d.trace.value != map[] && writeOk
              then r.value.trace == Some(d.trace.value["_path" := TracePath(testId, now)])
              else r.value.trace == d.trace
  {
    if testId !in TestNames then Err(HttpError(400, "Unsupported testId '" + testId + "'"))
    else if analyzerOut.Err? then Err(InternalError)
    else
      var d := Dispatch(testId, sizeBytes, analyzerOut.value);
      var trace :=
        if (tracesRequested || configTraces) && d.trace.Some? && d.trace.value != map[] && writeOk
        then Some(d.trace.value["_path" := TracePath(testId, now)])
        else d.trace;
      Ok(AnalysisResponse(testId, TestNames[testId], now, None, d.score, d.unit,
        d.attempts.GetOr([]), d.confidence.GetOr(0.9), d.techniqueNotes.GetOr([]), trace))
  }

  /** The app offers two tests the service does not score. */
  lemma RunningTestsRejected(sizeBytes: nat, tracesRequested: bool, configTraces: bool,
                             analyzerOut: Result<Option<AnalysisDict>, string>, now: nat, writeOk: bool)
    ensures Analyze("shuttle_run", sizeBytes, tracesRequested, configTraces, analyzerOut, now, writeOk).Err?
    ensures Analyze("endurance_run", sizeBytes, tracesRequested, configTraces, analyzerOut, now, writeOk).Err?
    ensures Analyze("shuttle_run", sizeBytes, tracesRequested, configTraces, analyzerOut, now, writeOk).error.status == 400
  {
  }

  /** Without a real analyzer every accepted request is scored inside its
      fallback range, with a confidence of at least 0.85. */
  lemma FallbackResponseInRange(testId: string, sizeBytes: nat, tracesRequested: bool, configTraces: bool,
                                now: nat, writeOk: bool)
    requires testId in TestNames
    ensures var r := Analyze(testId, sizeBytes, tracesRequested, configTraces, Ok(None), now, writeOk);
      && r.Ok?
      && FallbackRange(testId).0 as real <= r.value.score <= FallbackRange(testId).1 as real
      && 0.85 <= r.value.confidence <= 0.9
      && r.value.trace.None?
  {
  }

  /** A trace path names its test and ends in `.json`. */
  lemma TracePathShape(testId: string, now: nat)
    ensures var p := TracePath(testId, now);
      && p[..7] == "traces/" && p[7..7 + |testId|] == testId && p[|p| - 5..] == ".json"
  {
  }

  /** Key-wise merge of a threshold dictionary: supplied keys take the new
      value, every other key keeps its old one. */
  function Merge(current: map<string, real>, update: map<string, real>): (m: map<string, real>)
    ensures m.Keys == current.Keys + update.Keys
    ensures forall k :: k in update ==> m[k] == update[k]
    ensures forall k :: k in current && k !in update ==> m[k] == current[k]
  {
    current + update
  }

  /** A `/config` request: each part may be absent. */
  datatype ConfigUpdate = ConfigUpdate(
    includeTraces: Option<bool>,
    pushups: Option<map<string, real>>,
    situps: Option<map<string, real>>)

  datatype ConfigSnapshot = ConfigSnapshot(includeTraces: bool, pushups: map<string, real>, situps: map<string, real>)

  /** The service's mutable configuration. The rep counters keep their own
      constant thresholds and do not read it. */
  class Config {
    var includeTraces: bool
    var pushups: map<string, real>
    var situps: map<string, real>

    constructor ()
      ensures !includeTraces
      ensures pushups == map["down_thresh" := 90.0, "up_thresh" := 160.0]
      ensures situps == map["low_thresh" := 60.0, "high_thresh" := 100.0]
    {
      includeTraces := false;
      pushups := map["down_thresh" := 90.0, "up_thresh" := 160.0];
      situps := map["low_thresh" := 60.0, "high_thresh" := 100.0];
    }

    /** `GET /config`. */
    function Snapshot(): (s: ConfigSnapshot)
      reads this
      ensures s.includeTraces == includeTraces && s.pushups == pushups && s.situps == situps
    {
      ConfigSnapshot(includeTraces, pushups, situps)
    }

    /** `POST /config`: only the parts present change, and threshold
        dictionaries are merged key-wise. Returns the new configuration. */
    method UpdateConfig(u: ConfigUpdate) returns (s: ConfigSnapshot)
      modifies this
      ensures includeTraces == u.includeTraces.GetOr(old(includeTraces))
      ensures pushups == if u.pushups.Some? then Merge(old(pushups), u.pushups.value) else old(pushups)
      ensures situps == if u.situps.Some? then Merge(old(situps), u.situps.value) else old(situps)
      ensures s == Snapshot()
    {
      if u.includeTraces.Some? {
        includeTraces := u.includeTraces.value;
      }
      if u.pushups.Some? {
        pushups := Merge(pushups, u.pushups.value);
      }
      if u.situps.Some? {
        situps := Merge(situps, u.situps.value);
      }
      s := Snapshot();
    }
  }

  /** Updating only the push-up `down_thresh` keeps `up_thresh` and every
      sit-up threshold as they were. */
  method PartialConfigUpdate() returns (before: ConfigSnapshot, after: ConfigSnapshot)
    ensures after.pushups == map["down_thresh" := 80.0, "up_thresh" := 160.0]
    ensures after.situps == before.situps && after.includeTraces == before.includeTraces
  {
    var config := new Config();
    before := config.Snapshot();
    after := config.UpdateConfig(ConfigUpdate(None, Some(map["down_thresh" := 80.0]), None));
  }
}
