# AutomatedQA bookkeeping, modelled in Dafny

This project models the orchestration core of a visual-regression QA tool:
the `AutomatedQA` class of `src/lib/automatedQA.ts`. One run of it

- keeps a run identity, a mismatch threshold (default 5) and a table of scan
  directories `scans/<requestId>/{desktop,laptop,mobile}` resolved against the
  working directory;
- reads the baseline manifest `scans/manifest.json` (a missing or unparsable
  file is the empty object), the three browser templates and one page of the
  content source's URL catalog;
- writes, for one browser, a test file made of that browser's template and one
  `it` block per URL, titled `{"browser":B,"url":link}`, that captures the page
  at three viewports and, only when the manifest's `baseRequestId` is truthy,
  compares each capture with the baseline run's file of the same shape;
- reduces the test runner's report to the list of `{browser, url}` pairs
  decoded from the test titles;
- finally points `baseRequestId` at the current run.

Modules: `Wrappers` (Option, Result), `Text` (decimal rendering of numbers,
string splitting), `Json` (manifest values, truthiness, interpolation),
`Paths` (viewports, directory table, snapshot files), `Plan` (title codec,
test units, the exact text of each block, the pass rule), `Results` (report
reduction) and `QA` (the class). The generated text is modelled character for
character: `Plan.Render` of the unit `Plan.UnitFor` builds for a URL is what
`run` appends for it. The loop itself is `QA.AppendBlocks`, which appends the
same three pieces per URL through `QA.AppendUrlBlock`, and
`QA.AutomatedQA.GenerateSpec` calls it on the object's state.

The model keeps these behaviours of the code as written:
- the catalog is one page: the recursion for further pages is commented out;
- after an unsuccessful run, `failed` lists every test of the first test file, passing
  ones included, not only the failed units;
- the baseline pointer is overwritten by every run, whatever its outcome;
- a runner that fails to start is not recovered from: the source dereferences the
  undefined result;
- an empty plan is not reported apart from a full pass.

## Model

| member | source | states |
|---|---|---|
| Plan.TemplateIndex | src/lib/automatedQA.ts:36-45 | there is an index exactly for `chromium`, `firefox` and `webkit`; it is below 3 and names that browser's template |
| Plan.TemplateIndexOfName | src/lib/automatedQA.ts:36-45 | each of the three browser names maps back to its own index |
| Plan.TemplateFor | src/lib/automatedQA.ts:194-196 | the starting text is the browser's loaded template; it is undefined for an unknown browser or a template never loaded |
| QA.AutomatedQA.constructor | src/lib/automatedQA.ts:62-74 | the threshold is the argument or 5 when absent; the directory table is derived from the run identity; catalog and templates start empty and no manifest is held |
| Paths.DirectoriesFor | src/lib/automatedQA.ts:67-73 | SCAN_ROOT is `<cwd>/scans/<requestId>`; DESKTOP, LAPTOP and MOBILE are SCAN_ROOT followed by `/desktop`, `/laptop` and `/mobile`, so they lie inside the run's namespace; only TEST_ROOT lies outside `scans/` |
| Paths.CaptureIsSnapshotOfRun | src/lib/automatedQA.ts:203-217 | a capture file is, relative to the working directory, `scans/<requestId>/<viewport>/<id>/<browser>-snapshot.jpeg`: the shape a later run reads its baseline from |
| Paths.CaptureFileInjective | src/lib/automatedQA.ts:203-207 | for run identities without a slash, a capture file determines its run, viewport, page id and browser: no two distinct (run, viewport, page id, browser) tuples share a file |
| QA.AutomatedQA.GetUrls | src/lib/automatedQA.ts:97-122 | exactly one page is requested whatever the page-count header says; on success the catalog is the old catalog followed by the page's records in response order; on failure it is unchanged and the error is returned |
| QA.AutomatedQA.GetUrlCount | src/lib/automatedQA.ts:91 | the count is the number of catalogued URLs |
| QA.AutomatedQA.GetTemplates | src/lib/automatedQA.ts:127-146 | the templates become chromium, firefox, webkit in that order when all three are read; otherwise they are unchanged and the call fails |
| Json.LoadedManifest | src/lib/automatedQA.ts:170-181 | a parsed file is the manifest; a manifest with a baseRequestId key comes from a parsed file |
| Json.NoFileNoBaseline | src/lib/automatedQA.ts:178-181 | a missing or unparsable manifest file never yields a baseline |
| QA.AutomatedQA.GetManifest | src/lib/automatedQA.ts:165-184 | never fails; the held manifest is the parsed data, or the empty object for a missing or unparsable file |
| Json.WithBaseline | src/lib/automatedQA.ts:150 | after the update baseRequestId is the run identity; the keys are the old keys plus baseRequestId; every other field is unchanged; a baseline exists afterwards iff the identity is non-empty |
| Json.WithBaselineOverwrites | src/lib/automatedQA.ts:150 | a second update overwrites the first entirely |
| QA.AutomatedQA.WriteManifest | src/lib/automatedQA.ts:148-160 | the held manifest's baseRequestId becomes this run's identity unconditionally, other fields unchanged, and that manifest is what is written |
| QA.AutomatedQA.Load | src/lib/automatedQA.ts:76-89 | the manifest is always read; unreadable templates reject before any catalog request; otherwise page 1 is requested, and a failed request rejects with that request's error |
| Plan.UnitFor | src/lib/automatedQA.ts:198-239 | the block is titled with the browser and link; it captures into `<DIR>/<id>/<browser>-snapshot.jpeg` per viewport; it compares iff baseRequestId is truthy, then against `scans/<baseRequestId>/<viewport>/<id>/<browser>-snapshot.jpeg` with the run's one threshold |
| Plan.EmptyBaselineIdIsAbsent | src/lib/automatedQA.ts:210 | an empty-string baseRequestId counts as no baseline |
| Plan.NextRunComparesAgainstThisRun | src/lib/automatedQA.ts:210-217 | after the manifest points at a run, the next run's block for the same page and browser compares each viewport against exactly the file that run captured |
| Plan.UnitPasses | src/lib/automatedQA.ts:220-238 | with no baseline a block passes iff its captures succeed; with a baseline, it fails when the baseline files cannot be read and otherwise passes iff every viewport's truncated mismatch is at most the threshold |
| Plan.BootstrapPasses | src/lib/automatedQA.ts:237-239 | without a baseline a captured block passes whatever its mismatch values |
| Plan.ComparedFailsIffExceeds | src/lib/automatedQA.ts:231-235 | with a baseline a captured block fails iff some viewport's mismatch strictly exceeds the threshold |
| Plan.CheckIsPlaceholderIffNoComparison | src/lib/automatedQA.ts:210-239 | the block's middle is the `expect(1).toBe(1)` placeholder iff the block does not compare |
| Plan.RenderShape | src/lib/automatedQA.ts:198-241 | every block opens with its `it('<title>'` header and closes with `});` |
| Plan.PlanTextStep | src/lib/automatedQA.ts:197-242 | appending one URL's block to the text for the URLs before it gives the text for one more URL |
| Plan.PlanBlockAt | src/lib/automatedQA.ts:196-242 | the plan has one unit per URL, and the i-th URL's block stands between the blocks of the URLs before and after it |
| QA.AppendUrlBlock | src/lib/automatedQA.ts:198-241 | the three appends for one URL (navigation and captures, then the comparison or the placeholder, then the closing line) add exactly that URL's block, undefined text included |
| QA.AppendBlocks | src/lib/automatedQA.ts:197-242 | the loop leaves the template followed by one block per URL, in catalog order, or the template itself when there are no URLs |
| QA.AutomatedQA.Baseline | src/lib/automatedQA.ts:210 | the manifest the loop reads; with an empty catalog it is never read |
| QA.AutomatedQA.SpecText | src/lib/automatedQA.ts:194-242 | the text `run` builds from the object's templates, catalog, directory table, manifest and threshold |
| QA.AutomatedQA.GenerateSpec | src/lib/automatedQA.ts:194-242 | the text built is the template (or undefined) followed by one block per URL in catalog order |
| QA.AutomatedQA.Run | src/lib/automatedQA.ts:189-290 | an undefined text or a refused write leaves `run` unresolved; otherwise the spec file is `tests/<browser>.spec.js` with that text; `failed` is the reduced report and `passed` is empty; a successful report gives no failures |
| Plan.ReadJsonString | src/lib/automatedQA.ts:277 | a string read from a title contains no quote, no backslash and no control character, and is followed by its closing quote |
| Plan.DecodeTitle | src/lib/automatedQA.ts:277-282 | a decoded title is exactly the title written for the decoded browser and url |
| Plan.TitleRoundTrip | src/lib/automatedQA.ts:199 | decoding a written title recovers its browser and link iff neither contains a double quote, a backslash or a control character below U+0020 |
| Json.Truthy | src/lib/automatedQA.ts:210 | JavaScript truthiness of a manifest value: null, false, 0 and the empty string are falsy |
| Json.HasBaseline | src/lib/automatedQA.ts:210 | the manifest names a baseline iff baseRequestId is present and truthy |
| Json.BaseRequestId | src/lib/automatedQA.ts:210 | the manifest's baseRequestId field, absent when the key is missing |
| Json.Interpolate | src/lib/automatedQA.ts:215-217 | `${value}` of a manifest value; a string interpolates as itself |
| Text.IntToString | src/lib/automatedQA.ts:203 | `${n}` of a safe integer: non-empty, a leading minus exactly for negatives, and free of slashes, quotes and backslashes |
| Paths.Width | src/lib/automatedQA.ts:55-59 | the capture widths 1920, 1440 and 375 |
| Paths.Height | src/lib/automatedQA.ts:55-59 | the capture heights 1080, 900 and 812 |
| Paths.DirName | src/lib/automatedQA.ts:70-72 | the viewport directory names `desktop`, `laptop`, `mobile`, none containing a slash |
| Paths.Absolute | src/lib/automatedQA.ts:68-72 | path.resolve's prefix: the working directory followed by one slash |
| Paths.RunRoot | src/lib/automatedQA.ts:69 | a run's namespace `scans/<requestId>` |
| Paths.CaptureFile | src/lib/automatedQA.ts:203-207 | `<DIR>/<id>/<browser>-snapshot.jpeg` for the viewport's directory |
| Paths.SnapshotFile | src/lib/automatedQA.ts:215-217 | `<runRoot>/<viewport>/<id>/<browser>-snapshot.jpeg` relative to the working directory |
| Plan.BrowserName | src/lib/automatedQA.ts:38-43 | the browser names in template order |
| Plan.Title | src/lib/automatedQA.ts:199 | the block title `{"browser":"B","url":"L"}`; `Plan.DecodeTitle` is its inverse on plain strings |
| Plan.BaselineShots | src/lib/automatedQA.ts:215-217 | the three baseline files of the run `${baseRequestId}` names |
| Plan.SetViewport | src/lib/automatedQA.ts:201 | the viewport line with that viewport's width and height |
| Plan.Screenshot | src/lib/automatedQA.ts:203 | the screenshot line writing the capture to its path |
| Plan.ShotName | src/lib/automatedQA.ts:203-207 | the variables `desktopSS`, `laptopSS`, `mobileSS` |
| Plan.ItHeader | src/lib/automatedQA.ts:198-199 | the opening line of a block with its title |
| Plan.Navigation | src/lib/automatedQA.ts:200-208 | the goto, the log line and the three viewport-and-capture pairs, desktop, laptop, mobile in that order |
| Plan.Opening | src/lib/automatedQA.ts:198-208 | the first piece appended per URL: the header followed by the navigation |
| Plan.ReadBaseline | src/lib/automatedQA.ts:215-217 | the read of one baseline file |
| Plan.CompareImages | src/lib/automatedQA.ts:224-226 | the comparison of one capture with its baseline |
| Plan.CompareSection | src/lib/automatedQA.ts:211-236 | the comparison piece: read the three baseline files, compare, expect each truncated mismatch to be at most the threshold |
| Plan.Check | src/lib/automatedQA.ts:210-239 | the middle piece: the comparison when the unit compares, the placeholder otherwise |
| Plan.Render | src/lib/automatedQA.ts:198-241 | the whole text appended for one URL |
| Plan.RenderAll | src/lib/automatedQA.ts:197-242 | the blocks of a sequence of units, concatenated in order |
| Plan.PlanUnits | src/lib/automatedQA.ts:197-242 | one unit per catalogued URL, in catalog order |
| Plan.AsText | src/lib/automatedQA.ts:196-198 | a string read as text, with undefined reading as `undefined` |
| Plan.Append | src/lib/automatedQA.ts:198 | `strData += piece`: the text followed by the piece, and `undefined` followed by the piece when the text is undefined |
| Plan.PlanText | src/lib/automatedQA.ts:196-242 | the spec text: the template itself for no URLs, otherwise the template as text followed by one block per URL |
| QA.PageRequest | src/lib/automatedQA.ts:104 | the request `<endpoint>?per_page=2&page=<page>` |
| QA.SpecPath | src/lib/automatedQA.ts:244 | the spec file `tests/<browser>.spec.js` |
| Results.DecodeAll | src/lib/automatedQA.ts:276-283 | one pair per test, in order, each the pair `Plan.DecodeTitle` reads from its title; otherwise the error names a title that does not decode |
| Results.Aggregate | src/lib/automatedQA.ts:269-284 | a successful report gives no failures; otherwise the first test file's tests are decoded, every one of them, and a missing file is an error |
| Results.DecodeAllOfTitles | src/lib/automatedQA.ts:276-283 | titles written from pairs without quotes, backslashes or control characters decode back to exactly those pairs |
| Results.AggregateOfPlan | src/lib/automatedQA.ts:275-284 | when an unsuccessful report lists the generated blocks, `failed` names every catalogued URL for the browser, in catalog order |

## Left out

- HTTP: the content source's response is an input; the page-count header is carried but unused, as in the source, and the commented-out recursion is not modelled.
- Filesystem: directory creation is not modelled; reading the templates and the manifest, and whether the manifest and spec writes succeed, are parameters; JSON parsing of the manifest is reduced to parsed, missing or unparsable.
- Manifests that parse to something other than an object are not modelled. Arrays and the contents of nested objects are not modelled either.
- The UUID minted for the run and the working directory are constructor parameters; path normalisation of `.`, `..` and repeated slashes is not modelled (a UUID has none).
- The test runner, its configuration, concurrency bound and timeouts: its report is an input datatype; the crash when the runner throws and the result is undefined is not modelled.
- How the runner evaluates the generated file: a link containing a single quote or a line break breaks the generated JavaScript; the model renders it verbatim and takes the reported titles as given.
- JSON escape sequences and titles of any other JSON shape: the decoder rejects a backslash and any title not of the generated shape.
- The pixel comparison: mismatch values are given as the naturals `parseInt` truncates them to.
- JavaScript numbers: page ids and the threshold are assumed to be safe integers (below 2^53 in magnitude). Fractional values, the exponent form `${n}` takes from 1e21, and distinct ids that round together above 2^53 are not modelled.
- Elapsed-time measurement and printing, `os.cpus()` and all logging.
- The CLI wiring in `src/index.ts`, including its `getUrlCount() * 2` pass summary.
- The unused IPAD screen size, which is never captured.
- QA.AutomatedQA.GenerateSpec: requires the manifest to have been read, as `load` does first, unless the catalog is empty; with a URL and no manifest the source throws a TypeError reading `baseRequestId`, which is not modelled.
- QA.AutomatedQA.Run: requires the manifest to have been read unless the catalog is empty; see GenerateSpec.
- Paths.CaptureFileInjective: files are told apart by (run, viewport, page id, browser) only; two catalog records with the same id write the same files, as in the source, where `getUrls` appends without removing duplicates and a second call repeats the page.
- QA.AutomatedQA.WriteManifest: requires the manifest to have been read; the source would throw on an undefined manifest.
