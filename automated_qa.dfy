/**
 * The AutomatedQA object: the state one visual-regression run keeps (its
 * identity, the threshold, the directory table, the templates, the URL
 * catalog and the baseline manifest) and the operations that update it.
 * Every input the source obtains by I/O (the content source's page, the
 * template and manifest files, the runner's report) is a parameter.
 */
module QA {
  import opened Wrappers
  import opened Text
  import opened Json
  import opened Paths
  import opened Plan
  import opened Results

  /** The threshold when the constructor is given none. */
  const DefaultThreshold: int := 5

  /** One response of the content source. */
  datatype PageResponse = PageResponse(totalPagesHeader: string, data: seq<UrlRecord>)

  /** A failed request (network error or non-2xx status). */
  datatype FetchError = FetchError(reason: string)

  /** The request issued for one page of the catalog. */
  function PageRequest(endpoint: string, page: int): string
  {
    endpoint + "?per_page=2&page=" + IntToString(page)
  }

  /** The file `run` writes for the runner. */
  datatype SpecFile = SpecFile(path: string, text: string)

  function SpecPath(browser: string): string
  {
    "tests/" + browser + ".spec.js"
  }

  /** What `run` resolves with (elapsed time left out). */
  datatype RunOutput = RunOutput(spec: SpecFile, failed: seq<TestRef>, passed: seq<TestRef>)

  /** Why `run` does not resolve: writing the spec file threw (the text was
      undefined, or the file system refused it), or reading the report threw. */
  datatype RunError = SpecNotWritten | ReportUnreadable(error: ReportError)

  /** Why `load` rejects. */
  datatype LoadError = TemplatesUnreadable | CatalogUnavailable(error: FetchError)

  /** The body of `run`'s loop for one URL: append the navigation and
      captures, then the comparison when the manifest names a baseline or the
      placeholder otherwise, then the closing line. */
  method AppendUrlBlock(strData: Option<string>, unit: TestUnit, base: Manifest) returns (s: Option<string>)
    requires unit.comparison.Some? <==> HasBaseline(base)
    ensures s == Append(strData, Render(unit))
  {
    s := Append(strData, Opening(unit));
    if HasBaseline(base) {
      s := Append(s, CompareSection(unit.comparison.value));
    } else {
      s := Append(s, TrivialPass);
    }
    s := Append(s, Closing);
    AppendBlock(strData, unit);
  }

  /** The loop of `run`: one block per catalogued URL, in catalog order. */
  method AppendBlocks(template: Option<string>, browser: string, catalog: seq<UrlRecord>, dirs: Directories,
                      base: Manifest, threshold: int) returns (strData: Option<string>)
    ensures strData == PlanText(template, browser, catalog, dirs, base, threshold)
  {
    strData := template;
    var i := 0;
    while i < |catalog|
      invariant 0 <= i <= |catalog|
      invariant strData == PlanText(template, browser, catalog[..i], dirs, base, threshold)
    {
      var unit := UnitFor(browser, catalog[i], dirs, base, threshold);
      PlanTextStep(template, browser, catalog, dirs, base, threshold, i);
      strData := AppendUrlBlock(strData, unit, base);
      i := i + 1;
    }
    assert catalog[..|catalog|] == catalog;
  }

  class AutomatedQA {
    const endpoint: string
    const threshold: int
    const requestId: string
    const directories: Directories
    var templates: seq<string>
    var urls: seq<UrlRecord>
    /** None until the manifest has been read. */
    var manifest: Option<Manifest>

    /** requestId stands for the UUID minted here; cwd is the directory
        path.resolve resolves against. */
    constructor (misMatchPercentage: Option<int>, wpEndpoint: string, requestId: string, cwd: string)
      ensures threshold == (if misMatchPercentage.Some? then misMatchPercentage.value else DefaultThreshold)
      ensures endpoint == wpEndpoint && this.requestId == requestId
      ensures directories == DirectoriesFor(cwd, requestId)
      ensures templates == [] && urls == [] && manifest == None
    {
      threshold := if misMatchPercentage.Some? then misMatchPercentage.value else DefaultThreshold;
      endpoint := wpEndpoint;
      this.requestId := requestId;
      directories := DirectoriesFor(cwd, requestId);
      templates := [];
      urls := [];
      manifest := None;
    }

    method GetUrlCount() returns (n: nat)
      ensures n == |urls|
    {
      n := |urls|;
    }

    /** Fetches one page and appends its records to the catalog. The total
        page count is read but no further page is requested. */
    method GetUrls(page: int, response: Result<PageResponse, FetchError>)
      returns (requested: seq<string>, outcome: Result<bool, FetchError>)
      modifies this`urls
      ensures requested == [PageRequest(endpoint, page)]
      ensures response.Success? ==> urls == old(urls) + response.value.data && outcome == Success(true)
      ensures response.Failure? ==> urls == old(urls) && outcome == Failure(response.error)
    {
      requested := [PageRequest(endpoint, page)];
      match response
      case Success(results) =>
        urls := urls + results.data;
        outcome := Success(true);
      case Failure(error) =>
        outcome := Failure(error);
    }

    /** Installs the three browser templates; a file that cannot be read
        leaves the templates as they were. */
    method GetTemplates(chromium: Option<string>, firefox: Option<string>, webkit: Option<string>)
      returns (ok: bool)
      modifies this`templates
      ensures ok <==> chromium.Some? && firefox.Some? && webkit.Some?
      ensures ok ==> templates == [chromium.value, firefox.value, webkit.value]
      ensures !ok ==> templates == old(templates)
    {
      ok := chromium.Some? && firefox.Some? && webkit.Some?;
      if ok {
        templates := [chromium.value, firefox.value, webkit.value];
      }
    }

    /** Reads the manifest; never fails. */
    method GetManifest(file: ManifestFile)
      modifies this`manifest
      ensures manifest == Some(LoadedManifest(file))
      ensures !file.Parsed? ==> manifest == Some(map[])
    {
      match file
      case Parsed(data) => manifest := Some(data);
      case _ => manifest := Some(map[]);
    }

    /** Points the baseline at this run, whatever the run's outcome, and
        returns what is serialised; ok is whether the write succeeded. */
    method WriteManifest(writeSucceeds: bool) returns (written: Manifest, ok: bool)
      requires manifest.Some?
      modifies this`manifest
      ensures manifest == Some(WithBaseline(old(manifest.value), requestId))
      ensures written == manifest.value && ok == writeSucceeds
    {
      manifest := Some(manifest.value[BaseRequestIdKey := Str(requestId)]);
      written := manifest.value;
      ok := writeSucceeds;
    }

    /** Reads the manifest, then the templates, then the first catalog page;
        a template or catalog failure rejects. */
    method Load(file: ManifestFile, chromium: Option<string>, firefox: Option<string>, webkit: Option<string>,
                response: Result<PageResponse, FetchError>)
      returns (requested: seq<string>, r: Result<bool, LoadError>)
      modifies this`manifest, this`templates, this`urls
      ensures manifest == Some(LoadedManifest(file))
      ensures r == Success(true) <==> chromium.Some? && firefox.Some? && webkit.Some? && response.Success?
      ensures chromium.None? || firefox.None? || webkit.None? ==>
                r == Failure(TemplatesUnreadable) && requested == [] && urls == old(urls) && templates == old(templates)
      ensures chromium.Some? && firefox.Some? && webkit.Some? ==>
                templates == [chromium.value, firefox.value, webkit.value] && requested == [PageRequest(endpoint, 1)] &&
                urls == (if response.Success? then old(urls) + response.value.data else old(urls))
      ensures chromium.Some? && firefox.Some? && webkit.Some? && response.Failure? ==>
                r == Failure(CatalogUnavailable(response.error))
    {
      GetManifest(file);
      var ok := GetTemplates(chromium, firefox, webkit);
      if !ok {
        requested, r := [], Failure(TemplatesUnreadable);
        return;
      }
      var outcome;
      requested, outcome := GetUrls(1, response);
      r := if outcome.Success? then Success(true) else Failure(CatalogUnavailable(outcome.error));
    }

    /** The manifest as `run` reads it; only consulted when there is a URL. */
    function Baseline(): Manifest
      reads this
    {
      if manifest.Some? then manifest.value else map[]
    }

    /** The spec text `run` writes for a browser. The manifest is read once
        per URL, so with an empty catalog it need not have been loaded. */
    function SpecText(browser: string): Option<string>
      reads this
      requires manifest.Some? || urls == []
    {
      PlanText(TemplateFor(templates, browser), browser, urls, directories, Baseline(), threshold)
    }

    /** Builds the spec text `run` writes for a browser, from the template
        (undefined for an unknown browser) and the state read once: the
        loop does not change what it reads. */
    method GenerateSpec(browser: string) returns (strData: Option<string>)
      requires manifest.Some? || urls == []
      ensures strData == SpecText(browser)
    {
      strData := AppendBlocks(TemplateFor(templates, browser), browser, urls, directories, Baseline(), threshold);
    }

    /** `run`: writes the spec file and reduces the runner's report of it;
        writeSucceeds is whether the file system accepts a defined text. */
    method Run(browser: string, writeSucceeds: bool, report: RunnerReport) returns (out: Result<RunOutput, RunError>)
      requires manifest.Some? || urls == []
      ensures SpecText(browser).None? || !writeSucceeds ==> out == Failure(SpecNotWritten)
      ensures SpecText(browser).Some? && writeSucceeds && Aggregate(report).Failure? ==>
                out == Failure(ReportUnreadable(Aggregate(report).error))
      ensures SpecText(browser).Some? && writeSucceeds && Aggregate(report).Success? ==>
                out == Success(RunOutput(SpecFile(SpecPath(browser), SpecText(browser).value), Aggregate(report).value, []))
      ensures out.Success? && report.success ==> out.value.failed == []
    {
      var spec := GenerateSpec(browser);
      if spec.None? || !writeSucceeds {
        out := Failure(SpecNotWritten);
        return;
      }
      var failed := Aggregate(report);
      match failed
      case Failure(e) =>
        out := Failure(ReportUnreadable(e));
      case Success(f) =>
        out := Success(RunOutput(SpecFile(SpecPath(browser), spec.value), f, []));
    }
  }
}
