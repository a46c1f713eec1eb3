/** The client of the scoring service (services/api.js): the typed
    `ApiError`, the request it builds, and how it reads the response. The
    network and `JSON.parse` are parameters: `server` answers a request
    and `parse` reads a body (`None` when the text is not JSON). */
module Api {
  import opened Wrappers
  import JsValues

  /** A parsed JSON body, seen through the fields the app reads; every
      field may be absent. `timestamp` is the instant of the service's ISO
      string, in the app's epoch milliseconds. */
  datatype Body = Body(
    testId: Option<string>,
    testName: Option<string>,
    timestamp: Option<int>,
    score: Option<real>,
    unit: Option<string>,
    attempts: Option<seq<real>>,
    confidence: Option<real>,
    techniqueNotes: Option<seq<string>>,
    source: Option<string>)

  /** What the two entry points throw: an `ApiError` with its status and
      details, or any other error (a failed upload, a body that is not JSON). */
  datatype Failure =
    | ApiError(message: string, status: int, details: Option<Body>)
    | OtherError(message: string)

  /** `new ApiError(message, status = 0, details = null)`. */
  function NewApiError(message: string, status: int := 0, details: Option<Body> := None): (e: Failure)
    ensures e.ApiError? && e.message == message && e.status == status && e.details == details
  {
    ApiError(message, status, details)
  }

  /** Called without status and details, an `ApiError` has status 0 and null details. */
  lemma ApiErrorDefaults(message: string)
    ensures NewApiError(message) == ApiError(message, 0, None)
  {
  }

  const NotConfiguredMessage: string := "API_BASE_URL is not configured"

  /** `s.replace(/\/$/, '')`: at most one trailing slash is removed. */
  function StripTrailingSlash(s: string): (r: string)
    ensures r == s || (s != [] && s[|s| - 1] == '/' && r == s[..|s| - 1])
    ensures s != [] && s[|s| - 1] == '/' ==> |r| == |s| - 1
  {
    if s != [] && s[|s| - 1] == '/' then s[..|s| - 1] else s
  }

  /** The request URL: the base without one trailing slash, then `/analyze`. */
  function AnalyzeUrl(base: string): (url: string)
    ensures |url| >= 8 && url[|url| - 8..] == "/analyze"
  {
    StripTrailingSlash(base) + "/analyze"
  }

  /** A base with and without one trailing slash give the same URL. */
  lemma TrailingSlashIrrelevant(base: string)
    ensures base == [] || base[|base| - 1] != '/' ==> AnalyzeUrl(base + "/") == AnalyzeUrl(base)
  {
    assert (base + "/")[..|base|] == base;
  }

  /** Only one slash is removed: a base ending in two keeps one. */
  lemma OnlyOneSlashRemoved(base: string)
    ensures AnalyzeUrl(base + "//") == base + "//analyze"
  {
    assert (base + "//")[..|base| + 1] == base + "/";
  }

  /** The multipart upload `analyzeVideoWithProgress` sends. */
  datatype UploadRequest = UploadRequest(
    url: string,
    fileUri: string,
    fieldName: string,
    httpMethod: string,
    testId: string,
    includeTraces: string)

  /** What the upload call does: respond with a status and body text, or throw. */
  datatype UploadOutcome = Responded(status: int, body: string) | Threw(message: string)

  function BuildRequest(base: string, testId: string, fileUri: string, includeTraces: bool): (req: UploadRequest)
    ensures req.url == AnalyzeUrl(base) && req.fileUri == fileUri && req.testId == testId
    ensures req.fieldName == "file" && req.httpMethod == "POST"
    ensures req.includeTraces == "true" || req.includeTraces == "false"
    ensures req.includeTraces == "true" <==> includeTraces
  {
    UploadRequest(AnalyzeUrl(base), fileUri, "file", "POST", testId, if includeTraces then "true" else "false")
  }

  predicate Success(status: int) { 200 <= status < 300 }

  /** The status check and body parse after a completed upload. */
  function InterpretUpload(status: int, parsed: Option<Body>): (r: Result<Body, Failure>)
    ensures !Success(status) ==> r == Err(ApiError("Analysis failed", status, parsed))
    ensures Success(status) && parsed.None? ==> r.Err? && r.error.OtherError?
    ensures r.Ok? <==> Success(status) && parsed.Some?
    ensures r.Ok? ==> r.value == parsed.value.(source := Some("api"))
  {
    if !Success(status) then Err(ApiError("Analysis failed", status, parsed))
    else if parsed.None? then Err(OtherError("JSON Parse error"))
    else Ok(parsed.value.(source := Some("api")))
  }

  /** A status outside [200, 300), 500 for one, is reported as an
      `ApiError` carrying that status, whatever the body. */
  lemma ServerErrorIsApiError(parsed: Option<Body>)
    ensures InterpretUpload(500, parsed).Err?
    ensures InterpretUpload(500, parsed).error.ApiError?
    ensures InterpretUpload(500, parsed).error.status == 500
  {
  }

  /** The outcome of `analyzeVideoWithProgress`. */
  function UploadResult(base: Option<string>, testId: string, fileUri: string, includeTraces: bool,
                        server: UploadRequest -> UploadOutcome, parse: string -> Option<Body>): (r: Result<Body, Failure>)
    ensures !JsValues.Truthy(base) ==> r == Err(ApiError(NotConfiguredMessage, 0, None))
    ensures r.Ok? ==> r.value.source == Some("api")
  {
    if !JsValues.Truthy(base) then Err(NewApiError(NotConfiguredMessage))
    else match server(BuildRequest(base.value, testId, fileUri, includeTraces))
      case Threw(m) => Err(OtherError(m))
      case Responded(status, body) => InterpretUpload(status, parse(body))
  }

  /** The values `onProgress` receives: 1, once, after the upload
      completes and before its status is checked. */
  function ProgressCalls(base: Option<string>, testId: string, fileUri: string, includeTraces: bool,
                         server: UploadRequest -> UploadOutcome, hasOnProgress: bool): (calls: seq<real>)
    ensures calls == [] || calls == [1.0]
    ensures calls == [1.0] <==> JsValues.Truthy(base) && hasOnProgress
                                && server(BuildRequest(base.value, testId, fileUri, includeTraces)).Responded?
  {
    if JsValues.Truthy(base) && hasOnProgress
       && server(BuildRequest(base.value, testId, fileUri, includeTraces)).Responded?
    then [1.0] else []
  }

  /** `analyzeVideoWithProgress`: refuses before any request when the base
      URL is falsy, sends one upload otherwise, reports progress, then
      checks the status and parses the body. */
  method AnalyzeVideoWithProgress(base: Option<string>, testId: string, fileUri: string, includeTraces: bool,
                                  hasOnProgress: bool, server: UploadRequest -> UploadOutcome,
                                  parse: string -> Option<Body>)
    returns (request: Option<UploadRequest>, progress: seq<real>, result: Result<Body, Failure>)
    ensures request.None? <==> !JsValues.Truthy(base)
    ensures request.Some? ==> request.value == BuildRequest(base.value, testId, fileUri, includeTraces)
    ensures progress == ProgressCalls(base, testId, fileUri, includeTraces, server, hasOnProgress)
    ensures result == UploadResult(base, testId, fileUri, includeTraces, server, parse)
  {
    progress := [];
    if !JsValues.Truthy(base) {
      request := None;
      result := Err(NewApiError(NotConfiguredMessage));
      return;
    }
    var req := BuildRequest(base.value, testId, fileUri, includeTraces);
    request := Some(req);
    var outcome := server(req);
    if outcome.Threw? {
      result := Err(OtherError(outcome.message));
      return;
    }
    if hasOnProgress {
      progress := progress + [1.0];
    }
    result := InterpretUpload(outcome.status, parse(outcome.body));
  }

  /** The form `analyzeVideo` posts with `fetch`. */
  datatype FormRequest = FormRequest(url: string, testId: string, fileUri: string, httpMethod: string)

  /** The outcome of `analyzeVideo`: the same refusal, URL and status rule
      as `analyzeVideoWithProgress`, but the body is returned as parsed,
      without a `_source` tag. An aborted or failed `fetch` is a `Threw`
      answer of `server`, and its error is what the call throws. */
  function FetchResult(base: Option<string>, testId: string, fileUri: string,
                       server: FormRequest -> UploadOutcome, parse: string -> Option<Body>): (r: Result<Body, Failure>)
    ensures !JsValues.Truthy(base) ==> r == Err(ApiError(NotConfiguredMessage, 0, None))
    ensures JsValues.Truthy(base) ==>
              var answer := server(FormRequest(AnalyzeUrl(base.value), testId, fileUri, "POST"));
              && (answer.Threw? ==> r == Err(OtherError(answer.message)))
              && (answer.Responded? && !Success(answer.status) ==>
                    r == Err(ApiError("Analysis failed", answer.status, parse(answer.body))))
              && (answer.Responded? && Success(answer.status) && parse(answer.body).Some? ==>
                    r == Ok(parse(answer.body).value))
              && (answer.Responded? && Success(answer.status) && parse(answer.body).None? ==>
                    r.Err? && r.error.OtherError?)
  {
    if !JsValues.Truthy(base) then Err(NewApiError(NotConfiguredMessage))
    else match server(FormRequest(AnalyzeUrl(base.value), testId, fileUri, "POST"))
      case Threw(m) => Err(OtherError(m))
      case Responded(status, body) =>
        if !Success(status) then Err(NewApiError("Analysis failed", status, parse(body)))
        else if parse(body).None? then Err(OtherError("JSON Parse error"))
        else Ok(parse(body).value)
  }

  /** Given the same answer from the service, the two entry points agree:
      both fail or both succeed, with the same error, and the progress
      variant's body differs only by its `_source` tag. */
  lemma EntryPointsAgree(base: Option<string>, testId: string, fileUri: string,
                         fetch: FormRequest -> UploadOutcome, upload: UploadRequest -> UploadOutcome,
                         parse: string -> Option<Body>)
    requires JsValues.Truthy(base) ==>
               fetch(FormRequest(AnalyzeUrl(base.value), testId, fileUri, "POST"))
               == upload(BuildRequest(base.value, testId, fileUri, false))
    ensures var f := FetchResult(base, testId, fileUri, fetch, parse);
            var u := UploadResult(base, testId, fileUri, false, upload, parse);
            && (f.Ok? <==> u.Ok?)
            && (f.Err? ==> f.error == u.error)
            && (f.Ok? ==> u.value == f.value.(source := Some("api")))
  {
  }

  /** `analyzeVideo`: one `fetch` unless the base URL is falsy, and the
      outcome `FetchResult` describes. */
  method AnalyzeVideo(base: Option<string>, testId: string, fileUri: string,
                      server: FormRequest -> UploadOutcome, parse: string -> Option<Body>)
    returns (request: Option<FormRequest>, result: Result<Body, Failure>)
    ensures request.None? <==> !JsValues.Truthy(base)
    ensures result == FetchResult(base, testId, fileUri, server, parse)
    ensures !JsValues.Truthy(base) ==> result == Err(ApiError(NotConfiguredMessage, 0, None))
    ensures request.Some? ==> request.value == FormRequest(AnalyzeUrl(base.value), testId, fileUri, "POST")
    ensures request.Some? && server(request.value).Responded? && !Success(server(request.value).status) ==>
              result == Err(ApiError("Analysis failed", server(request.value).status, parse(server(request.value).body)))
    ensures result.Ok? ==> request.Some? && server(request.value).Responded? && Success(server(request.value).status)
                           && parse(server(request.value).body) == Some(result.value)
  {
    if !JsValues.Truthy(base) {
      request := None;
      result := Err(NewApiError(NotConfiguredMessage));
      return;
    }
    var req := FormRequest(AnalyzeUrl(base.value), testId, fileUri, "POST");
    request := Some(req);
    var res := server(req);
    if res.Threw? {
      result := Err(OtherError(res.message));
    } else if !Success(res.status) {
      result := Err(NewApiError("Analysis failed", res.status, parse(res.body)));
    } else if parse(res.body).None? {
      result := Err(OtherError("JSON Parse error"));
    } else {
      result := Ok(parse(res.body).value);
    }
  }
}
