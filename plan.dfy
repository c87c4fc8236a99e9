/**
 * The test plan `run` writes for one browser: the browser's template
 * followed by one `it` block per catalogued URL. A block is described by a
 * TestUnit (what it navigates to, which files it captures, which baseline
 * files it compares against) and Render gives the exact text the generator
 * appends for it.
 */
module Plan {
  import opened Wrappers
  import opened Text
  import opened Json
  import opened Paths

  /** One page of the content source: the three fields the catalog keeps. */
  datatype UrlRecord = UrlRecord(id: int, slug: string, link: string)

  // ---------------------------------------------------------------- browsers

  /** The browser engine at template position i. */
  function BrowserName(i: nat): string
    requires i < 3
  {
    if i == 0 then "chromium" else if i == 1 then "firefox" else "webkit"
  }

  /** The position of a browser's template; no position for any other name. */
  function TemplateIndex(browser: string): (r: Option<nat>)
    ensures r.Some? <==> browser in {"chromium", "firefox", "webkit"}
    ensures r.Some? ==> r.value < 3 && BrowserName(r.value) == browser
  {
    match browser
    case "chromium" => Some(0)
    case "firefox" => Some(1)
    case "webkit" => Some(2)
    case _ => None
  }

  lemma TemplateIndexOfName(i: nat)
    requires i < 3
    ensures TemplateIndex(BrowserName(i)) == Some(i)
  {
  }

  /** `this.templates[getTemplateIndex(browser)]`: undefined (None) for an
      unknown browser or a template that was never loaded. */
  function TemplateFor(templates: seq<string>, browser: string): (r: Option<string>)
    ensures r.Some? <==> TemplateIndex(browser).Some? && TemplateIndex(browser).value < |templates|
    ensures r.Some? ==> r.value == templates[TemplateIndex(browser).value]
  {
    match TemplateIndex(browser)
    case Some(i) => if i < |templates| then Some(templates[i]) else None
    case None => None
  }

  // ------------------------------------------------------------ title codec

  const TitleOpen: string := "{\"browser\":\""
  const TitleSep: string := ",\"url\":\""

  /** The title of a block, a JSON object naming the browser and the link. */
  function Title(browser: string, link: string): string
  {
    TitleOpen + (browser + ("\"" + (TitleSep + (link + ("\"" + "}")))))
  }

  /** A string that a JSON string literal holds verbatim: no quote, no
      backslash and no control character below U+0020, which section 7
      of RFC 8259 requires to be escaped. */
  predicate Plain(s: string)
  {
    '"' !in s && '\\' !in s && forall c | c in s :: c >= ' '
  }

  /**
   * Reads the body of a JSON string whose opening quote has been consumed:
   * its contents and what follows the closing quote. Escapes are not
   * decoded, so a backslash is not accepted; a raw control character is
   * rejected as JSON.parse rejects it.
   */
  function ReadJsonString(s: string): (r: Option<(string, string)>)
    ensures r.Some? ==> Plain(r.value.0) && s == r.value.0 + ("\"" + r.value.1)
  {
    if s == [] || s[0] == '\\' || s[0] < ' ' then None
    else if s[0] == '"' then Some(([], s[1..]))
    else
      match ReadJsonString(s[1..])
      case None => None
      case Some(p) => Some(([s[0]] + p.0, p.1))
  }

  lemma {:induction false} ReadJsonStringPlain(x: string, rest: string)
    requires Plain(x)
    ensures ReadJsonString(x + ("\"" + rest)) == Some((x, rest))
  {
    var s := x + ("\"" + rest);
    if x == [] {
      assert s == "\"" + rest;
    } else {
      assert x[0] in x;
      assert s[0] == x[0];
      assert s[1..] == x[1..] + ("\"" + rest);
      assert [x[0]] + x[1..] == x;
      forall c | c in x[1..] ensures c in x {
        assert c in [x[0]] + x[1..];
      }
      ReadJsonStringPlain(x[1..], rest);
    }
  }

  /** JSON.parse of a title followed by reading its browser and url fields. */
  function DecodeTitle(t: string): (r: Option<(string, string)>)
    ensures r.Some? ==> Plain(r.value.0) && Plain(r.value.1) && t == Title(r.value.0, r.value.1)
  {
    if !(TitleOpen <= t) then None
    else
      match ReadJsonString(t[|TitleOpen|..])
      case None => None
      case Some(first) =>
        if !(TitleSep <= first.1) then None
        else
          match ReadJsonString(first.1[|TitleSep|..])
          case None => None
          case Some(second) =>
            if second.1 == "}" then
              assert first.1 == TitleSep + first.1[|TitleSep|..];
              assert t == TitleOpen + t[|TitleOpen|..];
              Some((first.0, second.0))
            else None
  }

  /**
   * The aggregator recovers the browser and the link written into a title
   * exactly when neither holds a double quote, a backslash or a control
   * character.
   */
  lemma TitleRoundTrip(browser: string, link: string)
    ensures DecodeTitle(Title(browser, link)) == Some((browser, link)) <==> Plain(browser) && Plain(link)
  {
    if Plain(browser) && Plain(link) {
      var t := Title(browser, link);
      var rest := TitleSep + (link + ("\"" + "}"));
      assert t == TitleOpen + (browser + ("\"" + rest));
      assert t[|TitleOpen|..] == browser + ("\"" + rest);
      ReadJsonStringPlain(browser, rest);
      assert rest[|TitleSep|..] == link + ("\"" + "}");
      ReadJsonStringPlain(link, "}");
    }
  }

  // ------------------------------------------------------------- test units

  /** One file per viewport. */
  datatype Shots = Shots(desktop: string, laptop: string, mobile: string)
  {
    function At(v: Viewport): string
    {
      match v
      case Desktop => desktop
      case Laptop => laptop
      case Mobile => mobile
    }
  }

  /** The comparison step of a block: the baseline files read, and the
      largest mismatch each viewport may show. */
  datatype Comparison = Comparison(baseline: Shots, threshold: int)

  /** One generated `it` block. */
  datatype TestUnit = TestUnit(
    browser: string,
    url: UrlRecord,
    title: string,
    captures: Shots,
    comparison: Option<Comparison>)

  /** The files of the run identified by `${baseRequestId}`. */
  function BaselineShots(base: Value, urlId: int, browser: string): Shots
  {
    var root := RunRoot(Interpolate(base));
    Shots(SnapshotFile(root, Desktop, urlId, browser),
          SnapshotFile(root, Laptop, urlId, browser),
          SnapshotFile(root, Mobile, urlId, browser))
  }

  /** The block the generator writes for one URL. */
  function UnitFor(browser: string, url: UrlRecord, dirs: Directories, m: Manifest, threshold: int): (u: TestUnit)
    ensures u.browser == browser && u.url == url && u.title == Title(browser, url.link)
    ensures forall v :: u.captures.At(v) == CaptureFile(dirs, v, url.id, browser)
    ensures u.comparison.Some? <==> HasBaseline(m)
    ensures u.comparison.Some? ==> u.comparison.value.threshold == threshold
    ensures u.comparison.Some? ==>
              (forall v :: u.comparison.value.baseline.At(v)
                 == SnapshotFile(RunRoot(Interpolate(m[BaseRequestIdKey])), v, url.id, browser))
  {
    TestUnit(
      browser, url, Title(browser, url.link),
      Shots(CaptureFile(dirs, Desktop, url.id, browser),
            CaptureFile(dirs, Laptop, url.id, browser),
            CaptureFile(dirs, Mobile, url.id, browser)),
      if HasBaseline(m)
      then Some(Comparison(BaselineShots(m[BaseRequestIdKey], url.id, browser), threshold))
      else None)
  }

  /**
   * The baseline hand-off: once a run has stored its identity in the
   * manifest, the next run's block for the same page and browser compares
   * each viewport against exactly the file this run captured for it.
   */
  lemma NextRunComparesAgainstThisRun(cwd: string, thisRun: string, nextRun: string, m: Manifest,
                                      browser: string, url: UrlRecord, threshold: int, v: Viewport)
    requires thisRun != ""
    ensures var next := UnitFor(browser, url, DirectoriesFor(cwd, nextRun), WithBaseline(m, thisRun), threshold);
            var now := UnitFor(browser, url, DirectoriesFor(cwd, thisRun), m, threshold);
            next.comparison.Some? && Absolute(cwd) + next.comparison.value.baseline.At(v) == now.captures.At(v)
  {
    CaptureIsSnapshotOfRun(cwd, thisRun, v, url.id, browser);
  }

  /** An empty baseRequestId is falsy: the block does not compare. */
  lemma EmptyBaselineIdIsAbsent(browser: string, url: UrlRecord, dirs: Directories, m: Manifest, threshold: int)
    requires BaseRequestId(m) == Some(Str(""))
    ensures UnitFor(browser, url, dirs, m, threshold).comparison.None?
  {
  }

  // -------------------------------------------------------------- pass rule

  /** The three mismatch percentages of a comparison, truncated by parseInt. */
  datatype Mismatch = Mismatch(desktop: nat, laptop: nat, mobile: nat)
  {
    function At(v: Viewport): nat
    {
      match v
      case Desktop => desktop
      case Laptop => laptop
      case Mobile => mobile
    }
  }

  /** How a block's steps went when the runner executed it. */
  datatype Execution =
    | CaptureFailed                                   // navigation, viewport or screenshot error
    | Captured(baselineRead: bool, mismatch: Mismatch) // baselineRead: all three baseline files read

  /** Whether a block passes: its expectations all hold and no step threw. */
  function UnitPasses(u: TestUnit, e: Execution): (pass: bool)
    ensures u.comparison.None? ==> (pass <==> e.Captured?)
    ensures u.comparison.Some? && e.Captured? && e.baselineRead ==>
              (pass <==> forall v :: e.mismatch.At(v) <= u.comparison.value.threshold)
    ensures u.comparison.Some? && e.Captured? && !e.baselineRead ==> !pass
    ensures pass ==> e.Captured?
  {
    match e
    case CaptureFailed => false
    case Captured(read, mm) =>
      match u.comparison
      case None => true
      case Some(c) => read && forall v | v in Viewports :: mm.At(v) <= c.threshold
  }

  /** Without a baseline a block passes whatever its screenshots show. */
  lemma BootstrapPasses(browser: string, url: UrlRecord, dirs: Directories, m: Manifest, threshold: int,
                        mismatch: Mismatch, read: bool)
    requires !HasBaseline(m)
    ensures UnitPasses(UnitFor(browser, url, dirs, m, threshold), Captured(read, mismatch))
  {
  }

  /** With a baseline a captured block fails exactly when some viewport's
      mismatch strictly exceeds the run's one threshold. */
  lemma ComparedFailsIffExceeds(browser: string, url: UrlRecord, dirs: Directories, m: Manifest, threshold: int,
                                mismatch: Mismatch)
    requires HasBaseline(m)
    ensures !UnitPasses(UnitFor(browser, url, dirs, m, threshold), Captured(true, mismatch))
            <==> exists v :: mismatch.At(v) > threshold
  {
    var u := UnitFor(browser, url, dirs, m, threshold);
    if !UnitPasses(u, Captured(true, mismatch)) {
      var v :| mismatch.At(v) > u.comparison.value.threshold;
    }
  }

  // -------------------------------------------------------------- rendering

  const Indent10: string := "          "
  const Indent12: string := "            "
  const Indent14: string := "              "

  function SetViewport(v: Viewport): string
  {
    Indent12 + "await page.setViewportSize({ width: " + NatToString(Width(v))
    + ", height: " + NatToString(Height(v)) + " });\n"
  }

  function ShotName(v: Viewport): string
  {
    match v
    case Desktop => "desktopSS"
    case Laptop => "laptopSS"
    case Mobile => "mobileSS"
  }

  function Screenshot(v: Viewport, path: string): string
  {
    Indent12 + "const " + ShotName(v) + " = await page.screenshot({ fullPage: true, quality: 30, type: \"jpeg\", path: '"
    + path + "' });\n"
  }

  /** The line that opens a block: its title, as the runner reports it. */
  function ItHeader(title: string): string
  {
    "\n" + Indent10 + "it('" + title + "', async () => {\n"
  }

  /** The first piece appended for a URL: navigation and the three captures. */
  function Opening(u: TestUnit): string
  {
    ItHeader(u.title) + Navigation(u)
  }

  function Navigation(u: TestUnit): string
  {
    Indent12 + "await page.goto('" + u.url.link + "', { timeout: 0 });\n"
    + SetViewport(Desktop)
    + Indent12 + "console.log('here');\n"
    + Screenshot(Desktop, u.captures.desktop)
    + SetViewport(Laptop)
    + Screenshot(Laptop, u.captures.laptop)
    + SetViewport(Mobile)
    + Screenshot(Mobile, u.captures.mobile)
    + "\n" + Indent10
  }

  function ReadBaseline(path: string): string
  {
    Indent14 + "fsp.readFile(\"" + path + "\"),\n"
  }

  function CompareImages(v: Viewport, k: nat): string
  {
    Indent14 + "compareImages(" + ShotName(v) + ", fileData[" + NatToString(k) + "]),\n"
  }

  /** The comparison piece appended when the manifest names a baseline. */
  function CompareSection(c: Comparison): string
  {
    "\n\n" + Indent12 + "const files = [];\n"
    + Indent12 + "files.push(\n"
    + ReadBaseline(c.baseline.desktop)
    + ReadBaseline(c.baseline.laptop)
    + ReadBaseline(c.baseline.mobile)
    + Indent12 + ");\n\n"
    + Indent12 + "const fileData = await Promise.all(files);\n\n"
    + Indent12 + "const comparisons = [];\n"
    + Indent12 + "comparisons.push(\n"
    + CompareImages(Desktop, 0)
    + CompareImages(Laptop, 1)
    + CompareImages(Mobile, 2)
    + Indent12 + ");\n\n"
    + Indent12 + "const results = await Promise.all(comparisons);\n\n"
    + Indent12 + "results.forEach((result) => {\n"
    + Indent14 + "const mismatch = parseInt(result.misMatchPercentage, 10);\n"
    + Indent14 + "console.log(mismatch);\n"
    + Indent14 + "expect(mismatch).toBeLessThanOrEqual(" + IntToString(c.threshold) + ");\n"
    + Indent12 + "})\n"
    + Indent12
  }

  /** The placeholder piece appended when there is no baseline. */
  const TrivialPass: string := "  expect(1).toBe(1);\n"

  const Closing: string := "});\n\n"

  /** The middle piece of a block. */
  function Check(u: TestUnit): string
  {
    match u.comparison
    case Some(c) => CompareSection(c)
    case None => TrivialPass
  }

  /** The comparison text is present exactly when the unit compares. */
  lemma CheckIsPlaceholderIffNoComparison(u: TestUnit)
    ensures Check(u) == TrivialPass <==> u.comparison.None?
  {
    if u.comparison.Some? {
      assert Check(u)[0] == '\n' != TrivialPass[0];
    }
  }

  /** The whole text appended for one unit: opened by its titled header and
      closed by `});`. */
  function Render(u: TestUnit): (t: string)
  {
    Opening(u) + Check(u) + Closing
  }

  /** Every block opens with its titled header and closes with `});`. */
  lemma RenderShape(u: TestUnit)
    ensures ItHeader(u.title) <= Render(u)
    ensures |Render(u)| >= |Closing| && Render(u)[|Render(u)| - |Closing|..] == Closing
  {
    var h, n, c := ItHeader(u.title), Navigation(u), Check(u);
    Assoc(h, n, c);
    Assoc(h, n + c, Closing);
    PrefixOfConcat(h, (n + c) + Closing);
    SuffixOfConcat(Opening(u) + c, Closing);
  }

  /** The text of a sequence of units, in order. */
  function RenderAll(us: seq<TestUnit>): string
  {
    ConcatMap(Render, us)
  }

  // ------------------------------------------------------------------- plan

  /** The units of a plan, one per catalogued URL, in catalog order. */
  function PlanUnits(browser: string, urls: seq<UrlRecord>, dirs: Directories, m: Manifest, threshold: int): (us: seq<TestUnit>)
  {
    seq(|urls|, i requires 0 <= i < |urls| => UnitFor(browser, urls[i], dirs, m, threshold))
  }

  /** JavaScript's `undefined + s`: the value converted to a string. */
  function AsText(s: Option<string>): string
  {
    match s
    case Some(t) => t
    case None => "undefined"
  }

  /** `strData += piece`. */
  function Append(strData: Option<string>, piece: string): (r: Option<string>)
    ensures r == Some(AsText(strData) + piece)
    ensures strData.Some? ==> r == Some(strData.value + piece)
    ensures strData.None? ==> r == Some("undefined" + piece)
  {
    Some(AsText(strData) + piece)
  }

  /** The spec file text: the template, then one block per URL; undefined
      when the template is undefined and there are no URLs. */
  function PlanText(template: Option<string>, browser: string, urls: seq<UrlRecord>, dirs: Directories,
                    m: Manifest, threshold: int): Option<string>
  {
    if urls == [] then template
    else Some(AsText(template) + RenderAll(PlanUnits(browser, urls, dirs, m, threshold)))
  }

  /** The three appends of one loop iteration add the unit's whole block. */
  lemma AppendBlock(strData: Option<string>, u: TestUnit)
    ensures Append(Append(Append(strData, Opening(u)), Check(u)), Closing) == Append(strData, Render(u))
  {
    Assoc(AsText(strData), Opening(u), Check(u));
    Assoc(AsText(strData), Opening(u) + Check(u), Closing);
  }

  lemma PlanUnitsPrefix(browser: string, urls: seq<UrlRecord>, dirs: Directories, m: Manifest, threshold: int, i: nat)
    requires i < |urls|
    ensures PlanUnits(browser, urls[..i + 1], dirs, m, threshold)
         == PlanUnits(browser, urls[..i], dirs, m, threshold) + [UnitFor(browser, urls[i], dirs, m, threshold)]
  {
  }

  lemma TextSnoc(template: Option<string>, before: seq<TestUnit>, u: TestUnit)
    ensures Some(AsText(template) + RenderAll(before + [u]))
         == Append(if before == [] then template else Some(AsText(template) + RenderAll(before)), Render(u))
  {
    ConcatMapSnoc(Render, before, u);
    Assoc(AsText(template), RenderAll(before), Render(u));
    if before == [] {
      assert RenderAll(before) == "";
      assert AsText(template) + "" == AsText(template);
    }
  }

  /** Appending the next URL's block extends the plan by that URL. */
  lemma PlanTextStep(template: Option<string>, browser: string, urls: seq<UrlRecord>, dirs: Directories,
                     m: Manifest, threshold: int, i: nat)
    requires i < |urls|
    ensures PlanText(template, browser, urls[..i + 1], dirs, m, threshold)
         == Append(PlanText(template, browser, urls[..i], dirs, m, threshold),
                   Render(UnitFor(browser, urls[i], dirs, m, threshold)))
  {
    var before := PlanUnits(browser, urls[..i], dirs, m, threshold);
    var u := UnitFor(browser, urls[i], dirs, m, threshold);
    PlanUnitsPrefix(browser, urls, dirs, m, threshold, i);
    TextSnoc(template, before, u);
    assert urls[..i + 1] != [];
    assert urls[..i] == [] <==> before == [];
  }

  /**
   * The plan holds one block per URL, in catalog order: the block of the
   * i-th URL stands between the blocks of the URLs before it and those
   * after it.
   */
  lemma PlanBlockAt(browser: string, urls: seq<UrlRecord>, dirs: Directories, m: Manifest,
                    threshold: int, i: nat)
    requires i < |urls|
    ensures var us := PlanUnits(browser, urls, dirs, m, threshold);
            |us| == |urls| &&
            RenderAll(us) == RenderAll(us[..i]) + Render(UnitFor(browser, urls[i], dirs, m, threshold))
                             + RenderAll(us[i + 1..])
  {
    ConcatMapSplitAt(Render, PlanUnits(browser, urls, dirs, m, threshold), i);
  }
}
