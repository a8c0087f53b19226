/** The file system as the engine sees it: a map from path to the bytes of
    the file, and POSIX `os.path.join` for building artifact paths. */
module Files {
  import opened Common
  import Json

  type FileSystem = map<string, seq<Byte>>

  /** Names of the three artifacts the audit ledger covers. */
  const MetricsFile: string := "baseline_metrics.json"
  const ForecastsFile: string := "baseline_forecasts.csv"
  const RunInfoFile: string := "run_info.json"
  const AuditLogFile: string := "audit_log.json"

  /** A name relative to its directory. */
  predicate Relative(name: string)
  {
    name != [] && name[0] != '/'
  }

  /** posixpath.join(dir, name): an absolute name replaces the directory. */
  function Join(dir: string, name: string): (p: string)
    ensures Relative(name) ==> |p| >= |name| && p[|p| - |name|..] == name
    ensures |name| > 0 && name[0] == '/' ==> p == name
  {
    if |name| > 0 && name[0] == '/' then name
    else if dir == [] || dir[|dir| - 1] == '/' then dir + name
    else dir + "/" + name
  }

  /** Paths in one directory are distinct for distinct relative names. */
  lemma JoinInjective(dir: string, a: string, b: string)
    requires Relative(a) && Relative(b) && a != b
    ensures Join(dir, a) != Join(dir, b)
  {
    var d := if dir == [] || dir[|dir| - 1] == '/' then dir else dir + "/";
    assert Join(dir, a) == d + a && Join(dir, b) == d + b;
    assert (d + a)[|d|..] == a && (d + b)[|d|..] == b;
  }

  datatype IoError =
    | FileNotFound(path: string)  // open() on a path that does not exist
    | MalformedJson(path: string) // json.load on bytes that are not JSON

  /** `with open(path) as f: json.load(f)`. */
  function LoadJson(fs: FileSystem, path: string, decode: Json.Decoder): (r: Result<Json.Json, IoError>)
    ensures r.Ok? <==> path in fs && decode(fs[path]).Some?
    ensures r.Ok? ==> r.value == decode(fs[path]).value
  {
    if path !in fs then Err(FileNotFound(path))
    else match decode(fs[path])
      case None => Err(MalformedJson(path))
      case Some(j) => Ok(j)
  }
}
