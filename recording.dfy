/** The recording screen (screens/RecordingScreen.js): the countdown into
    recording, the recording guards, and the scoring of a captured video
    with its fallback to a local estimate, its storage and the hand-off to
    the results screen. The camera, the media library, the clock, the
    random source, the scoring service and storage failures are
    parameters of the operations that use them. */
module Recording {
  import opened Wrappers
  import JsValues
  import Api
  import opened Records

  /** The tests the screen gives a duration and a local estimate for. */
  const KnownTests: set<string> := {"vertical_jump", "push_ups", "sit_ups", "flexibility"}

  /** `getTestDuration`: the recording ceiling in seconds. */
  function TestDuration(testId: string): (seconds: nat)
    ensures testId in {"vertical_jump", "flexibility"} ==> seconds == 10
    ensures testId in {"push_ups", "sit_ups"} ==> seconds == 20
    ensures testId !in KnownTests ==> seconds == 15
  {
    if testId == "vertical_jump" then 10
    else if testId == "push_ups" then 20
    else if testId == "sit_ups" then 20
    else if testId == "flexibility" then 10
    else 15
  }

  /** The documented score range of a local estimate, per test. */
  function LocalScoreRange(testId: string): (range: (int, int))
    requires testId in KnownTests
  {
    if testId == "vertical_jump" then (20, 49)
    else if testId == "push_ups" then (20, 39)
    else if testId == "sit_ups" then (25, 44)
    else (5, 19)
  }

  /** A product with a factor in [0, 1) stays below the other factor. */
  lemma ScaledBelow(random: real, width: real)
    requires 0.0 <= random < 1.0 && width > 0.0
    ensures 0.0 <= random * width < width
  {
  }

  /** The floor of a real in [0, width) is a whole number in [0, width). */
  lemma FloorBelow(x: real, width: int)
    requires 0.0 <= x < width as real
    ensures 0 <= x.Floor < width
  {
    assert x.Floor as real <= x;
  }

  /** `Math.floor(random * width) + low` for a `random` in [0, 1). */
  function Draw(random: real, width: nat, low: int): (score: int)
    requires 0.0 <= random < 1.0 && width > 0
    ensures low <= score <= low + width - 1
  {
    var x := random * width as real;
    ScaledBelow(random, width as real);
    FloorBelow(x, width);
    x.Floor + low
  }

  /** `simulateAIAnalysis`: the local estimate. `random` is the value
      `Math.random()` returned. A test without an entry gets a record
      without score, unit, attempts, confidence or notes. */
  function SimulateAIAnalysis(test: TestInfo, videoUri: string, random: real, now: int): (r: TestResult)
    requires 0.0 <= random < 1.0
    ensures r.testId == test.id && r.testName == test.name && r.timestamp == now && r.videoUri == videoUri
    ensures r.source == "local" && r.processed
    ensures r.score.Some? <==> test.id in KnownTests
    ensures r.unit.Some? == r.score.Some? && r.attempts.Some? == r.score.Some?
    ensures r.confidence.Some? == r.score.Some? && r.techniqueNotes.Some? == r.score.Some?
    ensures r.score.Some? ==> LocalScoreRange(test.id).0 as real <= r.score.value <= LocalScoreRange(test.id).1 as real
    ensures r.score.Some? ==> r.score.value == r.score.value.Floor as real
    ensures r.confidence.Some? ==> 0.0 <= r.confidence.value <= 1.0
    ensures r.attempts.Some? ==> 1 <= |r.attempts.value| <= 3
  {
    var base := TestResult(test.id, test.name, now, videoUri, None, None, None, None, None, true, "local");
    if test.id == "vertical_jump" then
      base.(score := Some(Draw(random, 30, 20) as real), unit := Some("cm"), attempts := Some([20.0, 25.0, 30.0]),
            confidence := Some(0.95), techniqueNotes := Some(["Good takeoff", "Improve landing"]))
    else if test.id == "push_ups" then
      base.(score := Some(Draw(random, 20, 20) as real), unit := Some("reps"), attempts := Some([20.0]),
            confidence := Some(0.9), techniqueNotes := Some(["Full range", "Straight body"]))
    else if test.id == "sit_ups" then
      base.(score := Some(Draw(random, 20, 25) as real), unit := Some("reps"), attempts := Some([25.0]),
            confidence := Some(0.88), techniqueNotes := Some(["Consistent form"]))
    else if test.id == "flexibility" then
      base.(score := Some(Draw(random, 15, 5) as real), unit := Some("cm"), attempts := Some([5.0, 10.0, 15.0]),
            confidence := Some(0.9), techniqueNotes := Some(["Good flexibility"]))
    else base
  }

  /** The record built from a scoring-service response. */
  function NormalizeRemote(response: Api.Body, test: TestInfo, videoUri: string, assetUri: Option<string>, now: int): (r: TestResult)
    ensures JsValues.Truthy(response.testId) ==> r.testId == response.testId.value
    ensures !JsValues.Truthy(response.testId) ==> r.testId == test.id
    ensures JsValues.Truthy(response.testName) ==> r.testName == response.testName.value
    ensures !JsValues.Truthy(response.testName) ==> r.testName == test.name
    ensures r.timestamp == if response.timestamp.Some? then response.timestamp.value else now
    ensures r.videoUri == if JsValues.Truthy(assetUri) then assetUri.value else videoUri
    ensures r.score == response.score && r.unit == response.unit
    ensures r.attempts.Some? && r.techniqueNotes.Some?
    ensures response.attempts.Some? ==> r.attempts == response.attempts
    ensures response.attempts.None? ==> r.attempts == Some([])
    ensures response.techniqueNotes.Some? ==> r.techniqueNotes == response.techniqueNotes
    ensures response.techniqueNotes.None? ==> r.techniqueNotes == Some([])
    ensures response.confidence.Some? ==> r.confidence == response.confidence
    ensures response.confidence.None? ==> r.confidence == Some(0.9)
    ensures JsValues.Truthy(response.source) ==> r.source == response.source.value
    ensures !JsValues.Truthy(response.source) ==> r.source == "api"
    ensures r.processed
  {
    TestResult(
      JsValues.OrElse(response.testId, test.id),
      JsValues.OrElse(response.testName, test.name),
      response.timestamp.GetOr(now),
      JsValues.OrElse(assetUri, videoUri),
      response.score,
      response.unit,
      Some(response.attempts.GetOr([])),
      Some(response.confidence.GetOr(0.9)),
      Some(response.techniqueNotes.GetOr([])),
      true,
      JsValues.OrElse(response.source, "api"))
  }

  /** A confidence of 0 from the service is kept: only a missing one becomes 0.9. */
  lemma ZeroConfidenceKept(response: Api.Body, test: TestInfo, videoUri: string, assetUri: Option<string>, now: int)
    requires response.confidence == Some(0.0)
    ensures NormalizeRemote(response, test, videoUri, assetUri, now).confidence == Some(0.0)
  {
  }

  /** The record one scoring of `videoUri` produces: the normalised
      service answer when the service is configured and answers, else the
      local estimate. */
  function AttemptResult(test: TestInfo, apiBaseUrl: Option<string>, videoUri: string, assetUri: Option<string>,
                         server: Api.UploadRequest -> Api.UploadOutcome, parse: string -> Option<Api.Body>,
                         random: real, now: int): (r: TestResult)
    requires 0.0 <= random < 1.0
  {
    if !JsValues.Truthy(apiBaseUrl) then SimulateAIAnalysis(test, videoUri, random, now)
    else match Api.UploadResult(apiBaseUrl, test.id, videoUri, true, server, parse)
      case Ok(body) => NormalizeRemote(body, test, videoUri, assetUri, now)
      case Err(_) => SimulateAIAnalysis(test, videoUri, random, now)
  }

  /** A failed or unconfigured service never aborts scoring: the result is
      then exactly the local estimate, and otherwise it is tagged 'api'. */
  lemma FallbackIsLocal(test: TestInfo, apiBaseUrl: Option<string>, videoUri: string, assetUri: Option<string>,
                        server: Api.UploadRequest -> Api.UploadOutcome, parse: string -> Option<Api.Body>,
                        random: real, now: int)
    requires 0.0 <= random < 1.0
    ensures var r := AttemptResult(test, apiBaseUrl, videoUri, assetUri, server, parse, random, now);
      && (r.source == "local" <==> Api.UploadResult(apiBaseUrl, test.id, videoUri, true, server, parse).Err?)
      && (r.source == "local" ==> r == SimulateAIAnalysis(test, videoUri, random, now))
      && (r.source != "local" ==> r.source == "api")
  {
    if JsValues.Truthy(apiBaseUrl) {
      var res := Api.UploadResult(apiBaseUrl, test.id, videoUri, true, server, parse);
      if res.Ok? {
        assert res.value.source == Some("api");
      }
    }
  }

  /** The screen's state for one test. `navigations` lists the results
      handed to the results screen; `alerts` the error dialogs shown. */
  class RecordingSession {
    const test: TestInfo
    const apiBaseUrl: Option<string>
    const store: AsyncStore
    const hasCamera: bool
    var isPreparing: bool
    var isRecording: bool
    var countdown: int
    var intervalActive: bool
    var recordingTime: nat
    var recordingsStarted: nat
    var isAnalyzing: bool
    var uploadProgress: real
    var lastError: Option<string>
    var lastVideoUri: Option<string>
    var analysisResult: Option<TestResult>
    var navigations: seq<TestResult>
    var alerts: seq<string>

    constructor (test: TestInfo, apiBaseUrl: Option<string>, store: AsyncStore, hasCamera: bool)
      ensures this.test == test && this.apiBaseUrl == apiBaseUrl && this.store == store && this.hasCamera == hasCamera
      ensures !isPreparing && !isRecording && !isAnalyzing && !intervalActive
      ensures countdown == 0 && recordingTime == 0 && recordingsStarted == 0 && uploadProgress == 0.0
      ensures lastError.None? && lastVideoUri.None? && analysisResult.None?
      ensures navigations == [] && alerts == []
    {
      this.test := test;
      this.apiBaseUrl := apiBaseUrl;
      this.store := store;
      this.hasCamera := hasCamera;
      isPreparing, isRecording, isAnalyzing, intervalActive := false, false, false, false;
      countdown, recordingTime, recordingsStarted, uploadProgress := 0, 0, 0, 0.0;
      lastError, lastVideoUri, analysisResult := None, None, None;
      navigations, alerts := [], [];
    }

    /** The Start Recording button, shown only when nothing is under way
        and no result has been produced yet: a 3-tick countdown begins. */
    method StartCountdown()
      requires !isRecording && !isPreparing && !isAnalyzing && analysisResult.None?
      modifies this`isPreparing, this`countdown, this`intervalActive
      ensures isPreparing && countdown == 3 && intervalActive
    {
      isPreparing := true;
      countdown := 3;
      intervalActive := true;
    }

    /** `startRecording`: nothing happens without a camera or while a
        recording is in progress; otherwise recording starts with the
        test's duration ceiling, and a camera that throws ends it again. */
    method StartRecording(startThrows: bool)
      modifies this`isRecording, this`recordingTime, this`recordingsStarted, this`alerts
      ensures !hasCamera || old(isRecording) ==>
                isRecording == old(isRecording) && recordingTime == old(recordingTime)
                && recordingsStarted == old(recordingsStarted) && alerts == old(alerts)
      ensures hasCamera && !old(isRecording) ==>
                recordingsStarted == old(recordingsStarted) + 1 && recordingTime == TestDuration(test.id)
                && isRecording == !startThrows
                && alerts == old(alerts) + (if startThrows then ["Failed to start recording."] else [])
    {
      if !hasCamera || isRecording {
        return;
      }
      var duration := TestDuration(test.id);
      isRecording := true;
      recordingTime := duration;
      recordingsStarted := recordingsStarted + 1;
      if startThrows {
        isRecording := false;
        alerts := alerts + ["Failed to start recording."];
      }
    }

    /** One firing of the countdown interval. */
    method Tick(startThrows: bool)
      requires intervalActive
      modifies this`countdown, this`intervalActive, this`isPreparing,
               this`isRecording, this`recordingTime, this`recordingsStarted, this`alerts
      ensures old(countdown) > 1 ==>
                countdown == old(countdown) - 1 && intervalActive && isPreparing == old(isPreparing)
                && isRecording == old(isRecording) && recordingTime == old(recordingTime)
                && recordingsStarted == old(recordingsStarted) && alerts == old(alerts)
      ensures old(countdown) <= 1 ==> countdown == 0 && !intervalActive && !isPreparing
      ensures old(countdown) <= 1 && (!hasCamera || old(isRecording)) ==>
                isRecording == old(isRecording) && recordingsStarted == old(recordingsStarted) && alerts == old(alerts)
      ensures old(countdown) <= 1 && hasCamera && !old(isRecording) ==>
                recordingsStarted == old(recordingsStarted) + 1 && recordingTime == TestDuration(test.id)
                && isRecording == !startThrows
                && alerts == old(alerts) + (if startThrows then ["Failed to start recording."] else [])
    {
      if countdown <= 1 {
        intervalActive := false;
        isPreparing := false;
        StartRecording(startThrows);
        countdown := 0;
      } else {
        countdown := countdown - 1;
      }
    }

    /** The whole countdown: it takes exactly three ticks, ends with the
        interval cleared and preparation over, and starts recording once. */
    method RunCountdown(startThrows: bool) returns (ticks: nat)
      requires !isRecording && !isPreparing && !isAnalyzing && analysisResult.None?
      modifies this`countdown, this`intervalActive, this`isPreparing,
               this`isRecording, this`recordingTime, this`recordingsStarted, this`alerts
      ensures ticks == 3 && countdown == 0 && !intervalActive && !isPreparing
      ensures recordingsStarted == old(recordingsStarted) + (if hasCamera then 1 else 0)
      ensures isRecording == (hasCamera && !startThrows)
      ensures hasCamera ==> recordingTime == TestDuration(test.id)
    {
      StartCountdown();
      ticks := 0;
      while intervalActive
        invariant intervalActive ==> isPreparing && 1 <= countdown <= 3 && ticks == 3 - countdown
        invariant intervalActive ==> !isRecording && recordingsStarted == old(recordingsStarted)
        invariant !intervalActive ==> ticks == 3 && countdown == 0 && !isPreparing
        invariant !intervalActive ==> recordingsStarted == old(recordingsStarted) + (if hasCamera then 1 else 0)
        invariant !intervalActive ==> isRecording == (hasCamera && !startThrows)
        invariant !intervalActive && hasCamera ==> recordingTime == TestDuration(test.id)
        decreases if intervalActive then countdown else 0
      {
        Tick(startThrows);
        ticks := ticks + 1;
      }
    }

    /** `stopRecording`: acts only while recording with a camera, and then
        always ends the recording (a failing stop is only logged). */
    method StopRecording()
      modifies this`isRecording
      ensures isRecording == (old(isRecording) && !hasCamera)
    {
      if hasCamera && isRecording {
        isRecording := false;
      }
    }

    /** `saveTestResult`: a missing key is an empty list, and one record is
        appended at the end. A storage failure is only logged. */
    method SaveTestResult(result: TestResult, writeOk: bool)
      modifies store`testResults
      ensures writeOk ==> store.testResults == Some(old(store.Results()) + [result])
      ensures !writeOk ==> store.testResults == old(store.testResults)
    {
      if writeOk {
        var existing := store.Results();
        store.testResults := Some(existing + [result]);
      }
    }

    /** What `saveAndAnalyzeVideo(videoUri)` leaves behind, compared with
        the state before it. The video is registered with the media
        library first (`asset`: its URI, or the error it threw). An error
        there aborts: nothing is stored or handed off, and the error and
        the last video URI are kept. Otherwise the video is scored remotely
        or else locally, the record is stored, and that same record is
        handed to the results screen. */
    twostate predicate Scored(videoUri: string, asset: Result<Option<string>, string>,
                              server: Api.UploadRequest -> Api.UploadOutcome, parse: string -> Option<Api.Body>,
                              random: real, now: int, writeOk: bool)
      requires 0.0 <= random < 1.0
      reads this, store
    {
      && lastVideoUri == Some(videoUri) && !isAnalyzing
      && uploadProgress == (if asset.Ok? && Api.ProgressCalls(apiBaseUrl, test.id, videoUri, true, server, true) == [1.0]
                            then 1.0 else 0.0)
      && (asset.Err? ==>
            && store.testResults == old(store.testResults) && navigations == old(navigations)
            && analysisResult == old(analysisResult)
            && lastError == Some(JsValues.OrElse(Some(asset.error), "Failed to analyze video"))
            && alerts == old(alerts) + ["Failed to analyze video. You can retry."])
      && (asset.Ok? ==>
            var r := AttemptResult(test, apiBaseUrl, videoUri, asset.value, server, parse, random, now);
            && analysisResult == Some(r)
            && navigations == old(navigations) + [r]
            && store.testResults == (if writeOk then Some(old(store.Results()) + [r]) else old(store.testResults))
            && alerts == old(alerts)
            && (lastError.None? <==> r.source != "local")
            && lastError == (if !JsValues.Truthy(apiBaseUrl) then Some("API_BASE_URL not set")
                             else var u := Api.UploadResult(apiBaseUrl, test.id, videoUri, true, server, parse);
                               if u.Err? then Some(JsValues.OrElse(Some(u.error.message), "Unknown error")) else None))
    }

    /** `saveAndAnalyzeVideo`: see `Scored`. */
    method SaveAndAnalyzeVideo(videoUri: string, asset: Result<Option<string>, string>,
                               server: Api.UploadRequest -> Api.UploadOutcome, parse: string -> Option<Api.Body>,
                               random: real, now: int, writeOk: bool)
      requires 0.0 <= random < 1.0
      modifies this`isAnalyzing, this`uploadProgress, this`lastError, this`lastVideoUri,
               this`analysisResult, this`navigations, this`alerts, store`testResults
      ensures Scored(videoUri, asset, server, parse, random, now, writeOk)
    {
      isAnalyzing := true;
      uploadProgress := 0.0;
      lastError := None;
      lastVideoUri := Some(videoUri);
      if asset.Err? {
        isAnalyzing := false;
        lastError := Some(JsValues.OrElse(Some(asset.error), "Failed to analyze video"));
        alerts := alerts + ["Failed to analyze video. You can retry."];
        return;
      }
      var result: TestResult;
      if JsValues.Truthy(apiBaseUrl) {
        var request, progress, response :=
          Api.AnalyzeVideoWithProgress(apiBaseUrl, test.id, videoUri, true, true, server, parse);
        if progress != [] {
          uploadProgress := progress[|progress| - 1];
        }
        if response.Ok? {
          result := NormalizeRemote(response.value, test, videoUri, asset.value, now);
        } else {
          lastError := Some(JsValues.OrElse(Some(response.error.message), "Unknown error"));
          result := SimulateAIAnalysis(test, videoUri, random, now);
        }
      } else {
        lastError := Some("API_BASE_URL not set");
        result := SimulateAIAnalysis(test, videoUri, random, now);
      }
      FallbackIsLocal(test, apiBaseUrl, videoUri, asset.value, server, parse, random, now);
      assert result == AttemptResult(test, apiBaseUrl, videoUri, asset.value, server, parse, random, now);
      SaveTestResult(result, writeOk);
      analysisResult := Some(result);
      isAnalyzing := false;
      navigations := navigations + [result];
    }

    /** The camera's `onRecordingFinished`: a video is scored; no video is
        an error. Either way the recording is over afterwards. */
    method OnRecordingFinished(video: Option<string>, asset: Result<Option<string>, string>,
                               server: Api.UploadRequest -> Api.UploadOutcome, parse: string -> Option<Api.Body>,
                               random: real, now: int, writeOk: bool)
      requires 0.0 <= random < 1.0
      modifies this`isRecording, this`isAnalyzing, this`uploadProgress, this`lastError, this`lastVideoUri,
               this`analysisResult, this`navigations, this`alerts, store`testResults
      ensures !isRecording
      ensures !JsValues.Truthy(video) ==>
                && store.testResults == old(store.testResults) && navigations == old(navigations)
                && analysisResult == old(analysisResult) && lastVideoUri == old(lastVideoUri)
                && isAnalyzing == old(isAnalyzing) && uploadProgress == old(uploadProgress)
                && lastError == Some("No video captured")
                && alerts == old(alerts) + ["Failed to process recorded video."]
      ensures JsValues.Truthy(video) ==> Scored(video.value, asset, server, parse, random, now, writeOk)
    {
      if JsValues.Truthy(video) {
        SaveAndAnalyzeVideo(video.value, asset, server, parse, random, now, writeOk);
      } else {
        lastError := Some("No video captured");
        alerts := alerts + ["Failed to process recorded video."];
      }
      isRecording := false;
    }

    /** The camera's `onRecordingError`. */
    method OnRecordingError(message: Option<string>)
      modifies this`isRecording, this`lastError, this`alerts
      ensures !isRecording && lastError == Some(JsValues.OrElse(message, "Recording error"))
      ensures alerts == old(alerts) + ["Failed to record video."]
    {
      isRecording := false;
      lastError := Some(JsValues.OrElse(message, "Recording error"));
      alerts := alerts + ["Failed to record video."];
    }

    /** Whether the screen shows its Retry control: only inside the panel
        drawn while an analysis is in flight, and only with an error. */
    predicate RetryShown()
      reads this
    {
      isAnalyzing && JsValues.Truthy(lastError)
    }

    /** The control that the "You can retry." alert promises: available
        whenever an error is kept together with the video it concerns. */
    predicate RetryOffered()
      reads this
    {
      JsValues.Truthy(lastError) && JsValues.Truthy(lastVideoUri)
    }

    /** The Retry button: scores the last captured video again, if any;
        without one nothing happens. */
    method Retry(asset: Result<Option<string>, string>,
                 server: Api.UploadRequest -> Api.UploadOutcome, parse: string -> Option<Api.Body>,
                 random: real, now: int, writeOk: bool)
      requires 0.0 <= random < 1.0
      modifies this`isAnalyzing, this`uploadProgress, this`lastError, this`lastVideoUri,
               this`analysisResult, this`navigations, this`alerts, store`testResults
      ensures !JsValues.Truthy(old(lastVideoUri)) ==> unchanged(this, store)
      ensures JsValues.Truthy(old(lastVideoUri)) ==>
                Scored(old(lastVideoUri).value, asset, server, parse, random, now, writeOk)
    {
      if JsValues.Truthy(lastVideoUri) {
        SaveAndAnalyzeVideo(lastVideoUri.value, asset, server, parse, random, now, writeOk);
      }
    }
  }

  /** One complete attempt whose scoring service is unreachable: countdown,
      recording, stop, fallback. Exactly one record is stored and exactly
      that record is handed to the results screen. */
  method AttemptWithUnreachableService(test: TestInfo, videoUri: string, random: real, now: int)
    returns (result: TestResult, stored: seq<TestResult>, handedOff: seq<TestResult>)
    requires 0.0 <= random < 1.0 && videoUri != ""
    ensures stored == [result] && handedOff == [result]
    ensures result == SimulateAIAnalysis(test, videoUri, random, now)
  {
    var store := new AsyncStore();
    var session := new RecordingSession(test, Some("http://192.168.1.10:8000/"), store, true);
    var ticks := session.RunCountdown(false);
    assert session.isRecording;
    session.StopRecording();
    var server := (req: Api.UploadRequest) => Api.Threw("Network request failed");
    var parse := (text: string) => None;
    session.OnRecordingFinished(Some(videoUri), Ok(None), server, parse, random, now, true);
    result := session.analysisResult.value;
    stored := store.Results();
    handedOff := session.navigations;
  }

  /** As written: when the media library fails, the alert says the video
      can be retried, but the control that retries the kept video is drawn
      only while an analysis is in flight, which the failure has just
      ended. (Recording anew stays possible while no result is shown.) */
  method MediaLibraryFailureHidesRetry(test: TestInfo, videoUri: string) returns (alert: string, shown: bool)
    ensures alert == "Failed to analyze video. You can retry."
    ensures !shown
  {
    var store := new AsyncStore();
    var session := new RecordingSession(test, Some("http://192.168.1.10:8000/"), store, true);
    var server := (req: Api.UploadRequest) => Api.Threw("Network request failed");
    var parse := (text: string) => None;
    session.SaveAndAnalyzeVideo(videoUri, Err("Permission denied"), server, parse, 0.0, 0, true);
    alert := session.alerts[|session.alerts| - 1];
    shown := session.RetryShown();
  }

  /** Corrected: after the same failure the retry is offered, and taking
      it scores the kept video, here with the service unreachable. */
  method MediaLibraryFailureOffersRetry(test: TestInfo, videoUri: string, random: real, now: int)
    returns (offered: bool, handedOff: seq<TestResult>)
    requires 0.0 <= random < 1.0 && videoUri != ""
    ensures offered
    ensures handedOff == [SimulateAIAnalysis(test, videoUri, random, now)]
  {
    var store := new AsyncStore();
    var session := new RecordingSession(test, Some("http://192.168.1.10:8000/"), store, true);
    var server := (req: Api.UploadRequest) => Api.Threw("Network request failed");
    var parse := (text: string) => None;
    session.SaveAndAnalyzeVideo(videoUri, Err("Permission denied"), server, parse, random, now, true);
    offered := session.RetryOffered();
    session.Retry(Ok(None), server, parse, random, now, true);
    handedOff := session.navigations;
  }
}
