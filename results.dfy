/**
 * The reduction of the test runner's report into the list of failed
 * `{browser, url}` pairs that `run` resolves with.
 */
module Results {
  import opened Wrappers
  import opened Plan

  /** The status the runner gives a test. */
  datatype Status = Passed | Failed | Pending | Skipped

  /** One test of a test file, titled as the generator titled its block. */
  datatype TestCase = TestCase(title: string, status: Status)

  /** The report for one test file. */
  datatype FileReport = FileReport(testResults: seq<TestCase>)

  /** `result.results` as the runner returns it. */
  datatype RunnerReport = RunnerReport(success: bool, testResults: seq<FileReport>)

  /** One entry of the output's `failed` (and `passed`) list. */
  datatype TestRef = TestRef(browser: string, url: string)

  /** How reading the report can throw: no first test file
      (`testResults[0]` is undefined), or a title JSON.parse rejects. */
  datatype ReportError = NoTestFile | UnreadableTitle(title: string)

  /** `tests.map(test => JSON.parse(test.title))`, keeping browser and url;
      the first title that does not decode throws. */
  function DecodeAll(tests: seq<TestCase>): (r: Result<seq<TestRef>, ReportError>)
    ensures r.Success? ==> |r.value| == |tests|
    ensures r.Success? ==> forall i :: 0 <= i < |tests| ==>
              tests[i].title == Title(r.value[i].browser, r.value[i].url)
    ensures r.Success? ==> forall i :: 0 <= i < |tests| ==>
              DecodeTitle(tests[i].title) == Some((r.value[i].browser, r.value[i].url))
    ensures r.Failure? ==>
              (r.error.UnreadableTitle? &&
               exists i :: 0 <= i < |tests| && tests[i].title == r.error.title && DecodeTitle(tests[i].title).None?)
  {
    if tests == [] then Success([])
    else
      match DecodeTitle(tests[0].title)
      case None => Failure(UnreadableTitle(tests[0].title))
      case Some(pair) =>
        match DecodeAll(tests[1..])
        case Failure(e) => Failure(e)
        case Success(rest) => Success([TestRef(pair.0, pair.1)] + rest)
  }

  /** The `failed` list: empty when the run succeeded, otherwise one entry
      per test of the first test file, whatever that test's status. */
  function Aggregate(report: RunnerReport): (r: Result<seq<TestRef>, ReportError>)
    ensures report.success ==> r == Success([])
    ensures !report.success && report.testResults == [] ==> r == Failure(NoTestFile)
    ensures !report.success && report.testResults != [] ==>
              r == DecodeAll(report.testResults[0].testResults)
  {
    if report.success then Success([])
    else if report.testResults == [] then Failure(NoTestFile)
    else DecodeAll(report.testResults[0].testResults)
  }

  /** Decoding titles written by the generator gives back the pairs they
      were written from, in order. */
  lemma {:induction false} DecodeAllOfTitles(tests: seq<TestCase>, refs: seq<TestRef>)
    requires |tests| == |refs|
    requires forall i :: 0 <= i < |refs| ==> Plain(refs[i].browser) && Plain(refs[i].url)
    requires forall i :: 0 <= i < |refs| ==> tests[i].title == Title(refs[i].browser, refs[i].url)
    ensures DecodeAll(tests) == Success(refs)
  {
    if tests != [] {
      TitleRoundTrip(refs[0].browser, refs[0].url);
      DecodeAllOfTitles(tests[1..], refs[1..]);
      assert refs == [TestRef(refs[0].browser, refs[0].url)] + refs[1..];
    }
  }

  /**
   * When the report of a failed run lists the generated blocks, `failed`
   * names every catalogued URL for the browser, in catalog order, the
   * passing ones included.
   */
  lemma AggregateOfPlan(report: RunnerReport, browser: string, urls: seq<UrlRecord>,
                        dirs: Paths.Directories, m: Json.Manifest, threshold: int)
    requires !report.success && report.testResults != []
    requires Plain(browser) && forall i :: 0 <= i < |urls| ==> Plain(urls[i].link)
    requires var tests := report.testResults[0].testResults;
             |tests| == |urls| &&
             forall i :: 0 <= i < |urls| ==>
               tests[i].title == PlanUnits(browser, urls, dirs, m, threshold)[i].title
    ensures Aggregate(report) == Success(seq(|urls|, i requires 0 <= i < |urls| => TestRef(browser, urls[i].link)))
  {
    var refs := seq(|urls|, i requires 0 <= i < |urls| => TestRef(browser, urls[i].link));
    DecodeAllOfTitles(report.testResults[0].testResults, refs);
  }
}
