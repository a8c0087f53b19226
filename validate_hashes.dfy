/** The validate_hashes command's validate_audit_hashes: like run_ci_check
    but with no existence check and no override.  A recorded file that is
    not there makes the hashing raise, which ends the walk; otherwise every
    differing digest is listed and validation passes only on an empty list. */
module ValidateHashes {
  import opened Common
  import opened Json
  import opened Files
  import opened FileHash
  import opened Ledger
  import RunCiCheck

  /** The mismatch list after the loop has seen `entries`, or the exception
      hashing a file that is not there raises. */
  function Tuples(fs: FileSystem, dir: string, sha: Sha256, entries: seq<Field>): Result<seq<MismatchEntry>, LedgerError>
  {
    if entries == [] then Ok([])
    else match Tuples(fs, dir, sha, entries[..|entries| - 1])
      case Err(e) => Err(e)
      case Ok(tuples) =>
        var e := entries[|entries| - 1];
        match FileDigest(fs, Join(dir, e.name), sha)
        case Err(cause) => Err(Unreadable(cause))
        case Ok(d) => if e.value != JStr(d) then Ok(tuples + [MismatchEntry(e.name, e.value, d)]) else Ok(tuples)
  }

  /** What validate_audit_hashes returns, or the exception it raises. */
  function AuditVerdict(fs: FileSystem, auditLogPath: string, baseDir: string, decode: Decoder, sha: Sha256): Result<Validation, LedgerError>
  {
    match RecordedFiles(fs, auditLogPath, decode)
    case Err(e) => Err(e)
    case Ok(entries) =>
      match Tuples(fs, baseDir, sha, entries)
      case Err(e) => Err(e)
      case Ok(mismatches) => Ok(Validation(mismatches, mismatches == []))
  }

  /** validate_audit_hashes(audit_log_path, base_dir). */
  method ValidateAuditHashes(fs: FileSystem, auditLogPath: string, baseDir: string, decode: Decoder, sha: Sha256)
    returns (r: Result<Validation, LedgerError>)
    ensures r == AuditVerdict(fs, auditLogPath, baseDir, decode, sha)
  {
    var recorded := RecordedFiles(fs, auditLogPath, decode);
    if recorded.Err? {
      return Err(recorded.error);
    }
    var entries := recorded.value;
    var mismatches: seq<MismatchEntry> := [];
    for i := 0 to |entries|
      invariant Tuples(fs, baseDir, sha, entries[..i]) == Ok(mismatches)
    {
      assert entries[..i + 1][..i] == entries[..i];
      var fileName, recordedHash := entries[i].name, entries[i].value;
      var fullPath := Join(baseDir, fileName);
      var current := ComputeFileHash(fs, fullPath, sha);
      if current.Err? {
        assert entries[..i + 1] == entries[..i] + [entries[i]];
        TuplesKeepError(fs, baseDir, sha, entries[..i + 1], entries[i + 1..]);
        assert entries[..i + 1] + entries[i + 1..] == entries;
        return Err(Unreadable(current.error));
      }
      if recordedHash != JStr(current.value) {
        mismatches := mismatches + [MismatchEntry(fileName, recordedHash, current.value)];
      }
    }
    assert entries[..|entries|] == entries;
    if mismatches != [] {
      return Ok(Validation(mismatches, false));
    }
    return Ok(Validation(mismatches, true));
  }

  /** Once hashing has raised, later entries are never reached. */
  lemma {:induction false} TuplesKeepError(fs: FileSystem, dir: string, sha: Sha256, a: seq<Field>, b: seq<Field>)
    requires Tuples(fs, dir, sha, a).Err?
    ensures Tuples(fs, dir, sha, a + b) == Tuples(fs, dir, sha, a)
    decreases |b|
  {
    if b == [] {
      assert a + b == a;
    } else {
      var n := |b| - 1;
      TuplesKeepError(fs, dir, sha, a, b[..n]);
      assert (a + b)[..|a + b| - 1] == a + b[..n];
    }
  }

  // ---------------------------------------------------------------------
  // Properties

  /** The walk completes exactly when every recorded file exists. */
  lemma {:induction false} TuplesOkIff(fs: FileSystem, dir: string, sha: Sha256, entries: seq<Field>)
    ensures Tuples(fs, dir, sha, entries).Ok? <==> forall i :: 0 <= i < |entries| ==> Join(dir, entries[i].name) in fs
  {
    if entries != [] {
      var n := |entries| - 1;
      TuplesOkIff(fs, dir, sha, entries[..n]);
      assert forall i :: 0 <= i < n ==> entries[..n][i] == entries[i];
    }
  }

  /** The first recorded file that is not there raises FileNotFoundError
      for its path; it is not reported as a mismatch. */
  lemma {:induction false} FirstMissingFileRaises(fs: FileSystem, dir: string, sha: Sha256, entries: seq<Field>, i: int)
    requires 0 <= i < |entries| && Join(dir, entries[i].name) !in fs
    requires forall j :: 0 <= j < i ==> Join(dir, entries[j].name) in fs
    ensures Tuples(fs, dir, sha, entries) == Err(Unreadable(FileNotFound(Join(dir, entries[i].name))))
  {
    var n := |entries| - 1;
    assert forall j :: 0 <= j < n ==> entries[..n][j] == entries[j];
    if i < n {
      FirstMissingFileRaises(fs, dir, sha, entries[..n], i);
    } else {
      TuplesOkIff(fs, dir, sha, entries[..n]);
    }
  }

  /** Where every recorded file exists, this variant lists exactly the
      tuples run_ci_check lists, in the same ledger order. */
  lemma {:induction false} AgreesWithRunCiCheck(fs: FileSystem, dir: string, sha: Sha256, entries: seq<Field>)
    requires forall i :: 0 <= i < |entries| ==> Join(dir, entries[i].name) in fs
    ensures Tuples(fs, dir, sha, entries) == Ok(RunCiCheck.Failures(fs, dir, sha, entries))
  {
    if entries != [] {
      var n := |entries| - 1;
      assert forall j :: 0 <= j < n ==> entries[..n][j] == entries[j];
      AgreesWithRunCiCheck(fs, dir, sha, entries[..n]);
      var e := entries[n];
      assert Join(dir, e.name) in fs;
      assert FileDigest(fs, Join(dir, e.name), sha) == Ok(sha(fs[Join(dir, e.name)]));
      var f := RunCiCheck.Failure(fs, dir, sha, e);
      assert f == if e.value != JStr(sha(fs[Join(dir, e.name)])) then [MismatchEntry(e.name, e.value, sha(fs[Join(dir, e.name)]))] else [];
      assert RunCiCheck.Failures(fs, dir, sha, entries) == RunCiCheck.Failures(fs, dir, sha, entries[..n]) + f;
      if f == [] {
        assert RunCiCheck.Failures(fs, dir, sha, entries[..n]) + f == RunCiCheck.Failures(fs, dir, sha, entries[..n]);
      }
    }
  }

  /** validate_audit_hashes returns True exactly when every recorded file
      exists with its recorded digest; there is no override. */
  lemma PassesIff(fs: FileSystem, auditLogPath: string, baseDir: string, decode: Decoder, sha: Sha256)
    ensures var r := AuditVerdict(fs, auditLogPath, baseDir, decode, sha);
      (r.Ok? && r.value.passed) <==>
        && RecordedFiles(fs, auditLogPath, decode).Ok?
        && forall i :: 0 <= i < |RecordedFiles(fs, auditLogPath, decode).value| ==>
             Matches(fs, baseDir, sha, RecordedFiles(fs, auditLogPath, decode).value[i])
  {
    if RecordedFiles(fs, auditLogPath, decode).Ok? {
      var entries := RecordedFiles(fs, auditLogPath, decode).value;
      TuplesOkIff(fs, baseDir, sha, entries);
      if Tuples(fs, baseDir, sha, entries).Ok? {
        AgreesWithRunCiCheck(fs, baseDir, sha, entries);
        RunCiCheck.FailuresEmptyIff(fs, baseDir, sha, entries);
      }
    }
  }

  /** `main` exits with status 1 on any mismatch, missing file or unreadable
      ledger, and with status 0 only when every recorded file matches. */
  lemma ExitStatusIff(fs: FileSystem, auditLogPath: string, baseDir: string, decode: Decoder, sha: Sha256)
    ensures ExitStatus(AuditVerdict(fs, auditLogPath, baseDir, decode, sha)) == 0 <==>
      && RecordedFiles(fs, auditLogPath, decode).Ok?
      && forall i :: 0 <= i < |RecordedFiles(fs, auditLogPath, decode).value| ==>
           Matches(fs, baseDir, sha, RecordedFiles(fs, auditLogPath, decode).value[i])
  {
    PassesIff(fs, auditLogPath, baseDir, decode, sha);
  }
}
