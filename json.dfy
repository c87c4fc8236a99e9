/**
 * The parsed contents of scans/manifest.json and the two JavaScript
 * conversions the core applies to a manifest field: the truthiness test of
 * an `if`, and the string conversion of a template-literal interpolation.
 */
module Json {
  import opened Wrappers
  import opened Text

  /** A JSON value as JSON.parse returns it; arrays are not modelled and
      every object is one opaque value. */
  datatype Value = Null | Bool(b: bool) | Number(n: int) | Str(s: string) | Object

  /** JavaScript truthiness: null, false, 0 and "" are falsy. */
  predicate Truthy(v: Value)
  {
    match v
    case Null => false
    case Bool(b) => b
    case Number(n) => n != 0
    case Str(s) => s != ""
    case Object => true
  }

  /** The text `${v}` produces inside a template literal. */
  function Interpolate(v: Value): (t: string)
    ensures v.Str? ==> t == v.s
  {
    match v
    case Null => "null"
    case Bool(b) => if b then "true" else "false"
    case Number(n) => IntToString(n)
    case Str(s) => s
    case Object => "[object Object]"
  }

  /** The manifest is the top-level object of the manifest file. */
  type Manifest = map<string, Value>

  const BaseRequestIdKey: string := "baseRequestId"

  /** What reading and parsing scans/manifest.json yields. */
  datatype ManifestFile = Missing | Unparsable | Parsed(data: Manifest)

  /** The manifest held in memory after a read: the parsed object, or the
      empty object when the file was missing or not JSON. */
  function LoadedManifest(f: ManifestFile): (m: Manifest)
    ensures BaseRequestIdKey in m ==> f.Parsed? && m == f.data
    ensures f.Parsed? ==> m == f.data
  {
    match f
    case Parsed(data) => data
    case _ => map[]
  }

  /** The manifest's baseRequestId field, None when the key is absent (undefined). */
  function BaseRequestId(m: Manifest): Option<Value>
  {
    if BaseRequestIdKey in m then Some(m[BaseRequestIdKey]) else None
  }

  /** Whether `if (manifest.baseRequestId)` takes its then-branch. */
  predicate HasBaseline(m: Manifest)
  {
    BaseRequestIdKey in m && Truthy(m[BaseRequestIdKey])
  }

  /** The manifest after `baseRequestId := requestId`. */
  function WithBaseline(m: Manifest, requestId: string): (r: Manifest)
    ensures BaseRequestId(r) == Some(Str(requestId))
    ensures HasBaseline(r) <==> requestId != ""
    ensures r.Keys == m.Keys + {BaseRequestIdKey}
    ensures forall k :: k in m && k != BaseRequestIdKey ==> r[k] == m[k]
  {
    m[BaseRequestIdKey := Str(requestId)]
  }

  /** A missing or unparsable manifest file never carries a baseline. */
  lemma NoFileNoBaseline(f: ManifestFile)
    requires !f.Parsed?
    ensures !HasBaseline(LoadedManifest(f))
  {
  }

  /** Writing twice is writing once with the later identity. */
  lemma WithBaselineOverwrites(m: Manifest, first: string, second: string)
    ensures WithBaseline(WithBaseline(m, first), second) == WithBaseline(m, second)
  {
  }
}
