/** The dictionary every analyzer of the scoring service returns
    (backend/main.py and backend/analysis/). An optional member is a key
    that may be absent; `trace` is the optional debugging payload, kept as
    a string-to-string dictionary. */
module AnalysisResult {
  import opened Wrappers

  datatype AnalysisDict = AnalysisDict(
    score: real,
    unit: string,
    attempts: Option<seq<real>>,
    confidence: Option<real>,
    techniqueNotes: Option<seq<string>>,
    trace: Option<map<string, string>>)
}
