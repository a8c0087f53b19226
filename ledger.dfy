/** The audit ledger shared by the run and its three verifiers: the
    `audit_log.json` document that records, per artifact name, the SHA-256
    digest of the artifact, and what it means for a recorded entry to agree
    with the file system. */
module Ledger {
  import opened Common
  import opened Json
  import opened Files
  import opened FileHash

  /** The artifacts a run records in its ledger, in the order it records them. */
  const TrackedFiles: seq<string> := [MetricsFile, ForecastsFile, RunInfoFile]

  /** Why a ledger could not be walked. */
  datatype LedgerError =
    | Unreadable(cause: IoError)  // open / json.load / hashing a file that is not there
    | NoFilesKey                  // `audit_log["files"]` raises KeyError
    | NotAnObject(what: string)   // `.get`, `[...]` or `.items()` on a value that is not a dict

  /** One tuple of a verifier's mismatch list: the file name, the recorded
      value and what was found (the current digest, or a marker). */
  datatype MismatchEntry = MismatchEntry(name: string, recorded: Json, found: string)

  /** What a verifier reports: the mismatch list it prints and its verdict. */
  datatype Validation = Validation(mismatches: seq<MismatchEntry>, passed: bool)

  /** `audit_log["files"].items()`: the ledger must be an object with a
      `files` member that is itself an object. */
  function RecordedFiles(fs: FileSystem, auditLogPath: string, decode: Decoder): (r: Result<seq<Field>, LedgerError>)
    ensures r.Ok? <==> (
      && LoadJson(fs, auditLogPath, decode).Ok?
      && LoadJson(fs, auditLogPath, decode).value.JObj?
      && Get(LoadJson(fs, auditLogPath, decode).value.fields, "files").Some?
      && Get(LoadJson(fs, auditLogPath, decode).value.fields, "files").value.JObj?)
    ensures r.Ok? ==> Get(LoadJson(fs, auditLogPath, decode).value.fields, "files") == Some(JObj(r.value))
  {
    match LoadJson(fs, auditLogPath, decode)
    case Err(e) => Err(Unreadable(e))
    case Ok(doc) =>
      if !doc.JObj? then Err(NotAnObject("audit log"))
      else match Get(doc.fields, "files")
        case None => Err(NoFilesKey)
        case Some(files) => if files.JObj? then Ok(files.fields) else Err(NotAnObject("files"))
  }

  /** The command's exit status: an uncaught exception and a failed
      validation both end the process with status 1. */
  function ExitStatus(r: Result<Validation, LedgerError>): (status: int)
    ensures status == 0 || status == 1
    ensures status == 0 <==> r.Ok? && r.value.passed
  {
    if r.Ok? && r.value.passed then 0 else 1
  }

  /** A recorded entry agrees with the file system: the file exists and the
      recorded value is its current digest (a recorded value that is not a
      string never equals a digest). */
  predicate Matches(fs: FileSystem, dir: string, sha: Sha256, e: Field)
  {
    Join(dir, e.name) in fs && e.value == JStr(sha(fs[Join(dir, e.name)]))
  }

  /** The `files` member of a new ledger: each name with the digest of its file. */
  function LedgerEntries(fs: FileSystem, dir: string, names: seq<string>, sha: Sha256): (r: Result<seq<Field>, IoError>)
    ensures r.Ok? <==> forall i :: 0 <= i < |names| ==> Join(dir, names[i]) in fs
    ensures r.Ok? ==> |r.value| == |names|
    ensures r.Ok? ==> forall i :: 0 <= i < |names| ==> r.value[i] == Field(names[i], JStr(sha(fs[Join(dir, names[i])])))
  {
    if names == [] then Ok([])
    else
      var last := names[|names| - 1];
      match LedgerEntries(fs, dir, names[..|names| - 1], sha)
      case Err(e) => Err(e)
      case Ok(entries) =>
        match FileDigest(fs, Join(dir, last), sha)
        case Err(e) => Err(e)
        case Ok(d) => Ok(entries + [Field(last, JStr(d))])
  }

  /** The ledger document: run id, timestamp and the recorded digests. */
  function AuditLog(runId: string, timestamp: string, entries: seq<Field>): (doc: Json)
    ensures doc.JObj? && Get(doc.fields, "files") == Some(JObj(entries))
  {
    var fields := [Field("run_id", JStr(runId)), Field("timestamp", JStr(timestamp)), Field("files", JObj(entries))];
    assert Get(fields, "files") == Get(fields[1..], "files") == Get(fields[2..], "files");
    JObj(fields)
  }

  /** Every entry of a freshly built ledger agrees with the file system it
      was built from. */
  lemma FreshEntriesMatch(fs: FileSystem, dir: string, names: seq<string>, sha: Sha256)
    requires LedgerEntries(fs, dir, names, sha).Ok?
    ensures var entries := LedgerEntries(fs, dir, names, sha).value;
      forall i :: 0 <= i < |entries| ==> Matches(fs, dir, sha, entries[i])
  {
  }

  /** Writing the ledger file does not disturb what it records: the audit
      log's own path is not one of the tracked artifacts' paths. */
  lemma AuditLogPathIsNotTracked(dir: string)
    ensures forall i :: 0 <= i < |TrackedFiles| ==> Join(dir, TrackedFiles[i]) != Join(dir, AuditLogFile)
  {
    JoinInjective(dir, MetricsFile, AuditLogFile);
    JoinInjective(dir, ForecastsFile, AuditLogFile);
    JoinInjective(dir, RunInfoFile, AuditLogFile);
  }

  /** The ledger entries read only the tracked paths: a write to any other
      path leaves them as they were. */
  lemma {:induction false} EntriesIgnoreOtherPath(fs: FileSystem, dir: string, names: seq<string>, sha: Sha256, p: string, content: seq<Byte>)
    requires forall i :: 0 <= i < |names| ==> Join(dir, names[i]) != p
    ensures LedgerEntries(fs[p := content], dir, names, sha) == LedgerEntries(fs, dir, names, sha)
  {
    if names != [] {
      var n := |names| - 1;
      assert Join(dir, names[n]) != p;
      assert forall i :: 0 <= i < n ==> names[..n][i] == names[i];
      EntriesIgnoreOtherPath(fs, dir, names[..n], sha, p, content);
      var last := Join(dir, names[n]);
      assert FileDigest(fs[p := content], last, sha) == FileDigest(fs, last, sha);
    }
  }
}
