/**
 * The viewport profiles captured by every test unit, the table of scan
 * directories derived from the run identity, and the snapshot files written
 * and read by the generated tests.
 */
module Paths {
  import opened Text

  /** The three captured screen sizes, in capture order. */
  datatype Viewport = Desktop | Laptop | Mobile

  const Viewports: seq<Viewport> := [Desktop, Laptop, Mobile]

  function Width(v: Viewport): nat
  {
    match v
    case Desktop => 1920
    case Laptop => 1440
    case Mobile => 375
  }

  function Height(v: Viewport): nat
  {
    match v
    case Desktop => 1080
    case Laptop => 900
    case Mobile => 812
  }

  /** The sub-directory of a run root that holds one viewport's captures. */
  function DirName(v: Viewport): (d: string)
    ensures '/' !in d
  {
    match v
    case Desktop => "desktop"
    case Laptop => "laptop"
    case Mobile => "mobile"
  }

  lemma DirNameInjective(v: Viewport, w: Viewport)
    requires DirName(v) == DirName(w)
    ensures v == w
  {
  }

  /** The constructor's directory table (absolute paths). */
  datatype Directories = Directories(
    testRoot: string,
    scanRoot: string,
    desktop: string,
    laptop: string,
    mobile: string)

  /** The directory a viewport's captures go to. */
  function DirOf(d: Directories, v: Viewport): string
  {
    match v
    case Desktop => d.desktop
    case Laptop => d.laptop
    case Mobile => d.mobile
  }

  /** The working directory as a prefix that relative paths are appended to. */
  function Absolute(cwd: string): (p: string)
    ensures |p| > 0 && p[|p| - 1] == '/'
  {
    if |cwd| > 0 && cwd[|cwd| - 1] == '/' then cwd else cwd + "/"
  }

  /** The namespace of one run, relative to the working directory. */
  function RunRoot(requestId: string): string
  {
    "scans/" + requestId
  }

  /** path.resolve of the table's segments against the working directory. */
  function DirectoriesFor(cwd: string, requestId: string): (d: Directories)
    ensures d.scanRoot == Absolute(cwd) + RunRoot(requestId)
    ensures forall v :: DirOf(d, v) == d.scanRoot + ("/" + DirName(v))
    ensures forall v :: d.scanRoot + "/" <= DirOf(d, v)
    ensures !(d.scanRoot <= d.testRoot) && !(Absolute(cwd) + "scans/" <= d.testRoot)
  {
    var root := Absolute(cwd) + RunRoot(requestId);
    Directories(
      Absolute(cwd) + "tests",
      root,
      root + "/desktop",
      root + "/laptop",
      root + "/mobile")
  }

  /** What follows a viewport directory in a snapshot file name. */
  function FileTail(urlId: int, browser: string): string
  {
    "/" + (IntToString(urlId) + ("/" + (browser + "-snapshot.jpeg")))
  }

  /** The file a test unit writes for one viewport. */
  function CaptureFile(d: Directories, v: Viewport, urlId: int, browser: string): string
  {
    DirOf(d, v) + FileTail(urlId, browser)
  }

  /** The file of the run rooted at runRoot for one viewport, relative to the
      working directory. */
  function SnapshotFile(runRoot: string, v: Viewport, urlId: int, browser: string): string
  {
    runRoot + ("/" + (DirName(v) + FileTail(urlId, browser)))
  }

  /**
   * What a run captures is, relative to the working directory, the file with
   * the same shape under that run's root: captures and baseline lookups are
   * addressed identically, with a different run identity.
   */
  lemma CaptureIsSnapshotOfRun(cwd: string, requestId: string, v: Viewport, urlId: int, browser: string)
    ensures CaptureFile(DirectoriesFor(cwd, requestId), v, urlId, browser)
         == Absolute(cwd) + SnapshotFile(RunRoot(requestId), v, urlId, browser)
  {
    var a, r, n, t := Absolute(cwd), RunRoot(requestId), DirName(v), FileTail(urlId, browser);
    assert DirOf(DirectoriesFor(cwd, requestId), v) == (a + r) + ("/" + n);
    Assoc(a + r, "/" + n, t);
    Assoc(a, r, ("/" + n) + t);
    Assoc("/", n, t);
  }

  /**
   * Capture files never collide: for run identities without a slash (a UUID
   * has none), the file determines the run, the viewport, the page id and
   * the browser. Concurrent units and runs therefore write distinct files.
   */
  lemma CaptureFileInjective(cwd: string, r1: string, r2: string, v1: Viewport, v2: Viewport,
                             id1: int, id2: int, b1: string, b2: string)
    requires '/' !in r1 && '/' !in r2
    requires CaptureFile(DirectoriesFor(cwd, r1), v1, id1, b1)
          == CaptureFile(DirectoriesFor(cwd, r2), v2, id2, b2)
    ensures r1 == r2 && v1 == v2 && id1 == id2 && b1 == b2
  {
    var a := Absolute(cwd);
    var n1, n2 := DirName(v1), DirName(v2);
    var t1, t2 := FileTail(id1, b1), FileTail(id2, b2);
    CaptureIsSnapshotOfRun(cwd, r1, v1, id1, b1);
    CaptureIsSnapshotOfRun(cwd, r2, v2, id2, b2);
    CancelPrefix(a, SnapshotFile(RunRoot(r1), v1, id1, b1), SnapshotFile(RunRoot(r2), v2, id2, b2));
    Assoc("scans/", r1, "/" + (n1 + t1));
    Assoc("scans/", r2, "/" + (n2 + t2));
    CancelPrefix("scans/", r1 + ("/" + (n1 + t1)), r2 + ("/" + (n2 + t2)));
    SplitAtSlash(r1, n1 + t1, r2, n2 + t2);
    SplitAtSlash(n1, IntToString(id1) + ("/" + (b1 + "-snapshot.jpeg")),
                 n2, IntToString(id2) + ("/" + (b2 + "-snapshot.jpeg")));
    DirNameInjective(v1, v2);
    SplitAtSlash(IntToString(id1), b1 + "-snapshot.jpeg", IntToString(id2), b2 + "-snapshot.jpeg");
    IntToStringInjective(id1, id2);
    CancelSuffix(b1, b2, "-snapshot.jpeg");
  }
}
