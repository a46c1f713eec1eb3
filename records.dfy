/** The result record every attempt produces and the part of the
    device's key-value storage (AsyncStorage) the screens use. */
module Records {
  import opened Wrappers

  /** The `test` route parameter: the selected test's id and display name. */
  datatype TestInfo = TestInfo(id: string, name: string)

  /** One stored result. Optional fields are absent (`None`) on a local
      estimate for a test the estimator has no entry for. Timestamps are
      milliseconds since the epoch. */
  datatype TestResult = TestResult(
    testId: string,
    testName: string,
    timestamp: int,
    videoUri: string,
    score: Option<real>,
    unit: Option<string>,
    attempts: Option<seq<real>>,
    confidence: Option<real>,
    techniqueNotes: Option<seq<string>>,
    processed: bool,
    source: string)

  /** The storage keys the core reads and writes; `None` is a missing key.
      Values are held already parsed (JSON text round-trips unchanged). */
  class AsyncStore {
    var testResults: Option<seq<TestResult>>
    var athleteProfile: Option<map<string, string>>
    var athleteName: Option<string>

    constructor ()
      ensures testResults.None? && athleteProfile.None? && athleteName.None?
    {
      testResults := None;
      athleteProfile := None;
      athleteName := None;
    }

    /** The stored result log, a missing key read as the empty list. */
    function Results(): seq<TestResult>
      reads this
    {
      testResults.GetOr([])
    }
  }
}
