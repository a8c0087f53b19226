/** run_ci_check's validate_audit_hashes: walks the ledger's recorded files,
    lists every file that is missing (marked "MISSING", not hashed) or whose
    digest differs, and passes when the list is empty or `force` is set.
    The command exits with status 1 exactly when validation does not pass. */
module RunCiCheck {
  import opened Common
  import opened Json
  import opened Files
  import opened FileHash
  import opened Ledger

  const MissingMarker: string := "MISSING"

  /** What the loop appends for one recorded entry. */
  function Failure(fs: FileSystem, dir: string, sha: Sha256, e: Field): (r: seq<MismatchEntry>)
    ensures r == [] <==> Matches(fs, dir, sha, e)
    ensures r != [] ==> r == [MismatchEntry(e.name, e.value,
      if Join(dir, e.name) in fs then sha(fs[Join(dir, e.name)]) else MissingMarker)]
  {
    var path := Join(dir, e.name);
    if path !in fs then [MismatchEntry(e.name, e.value, MissingMarker)]
    else if e.value != JStr(sha(fs[path])) then [MismatchEntry(e.name, e.value, sha(fs[path]))]
    else []
  }

  /** The mismatch list after the loop has seen `entries`. */
  function Failures(fs: FileSystem, dir: string, sha: Sha256, entries: seq<Field>): seq<MismatchEntry>
  {
    if entries == [] then []
    else Failures(fs, dir, sha, entries[..|entries| - 1]) + Failure(fs, dir, sha, entries[|entries| - 1])
  }

  /** What validate_audit_hashes reports, or the exception it raises. */
  function AuditVerdict(fs: FileSystem, auditLogPath: string, baseDir: string, force: bool, decode: Decoder, sha: Sha256): Result<Validation, LedgerError>
  {
    match RecordedFiles(fs, auditLogPath, decode)
    case Err(e) => Err(e)
    case Ok(entries) =>
      var mismatches := Failures(fs, baseDir, sha, entries);
      Ok(Validation(mismatches, mismatches == [] || force))
  }

  /** validate_audit_hashes(audit_log_path, base_dir, force). */
  method ValidateAuditHashes(fs: FileSystem, auditLogPath: string, baseDir: string, force: bool, decode: Decoder, sha: Sha256)
    returns (r: Result<Validation, LedgerError>)
    ensures r == AuditVerdict(fs, auditLogPath, baseDir, force, decode, sha)
  {
    var recorded := RecordedFiles(fs, auditLogPath, decode);
    if recorded.Err? {
      return Err(recorded.error);
    }
    var entries := recorded.value;
    var mismatches: seq<MismatchEntry> := [];
    for i := 0 to |entries|
      invariant mismatches == Failures(fs, baseDir, sha, entries[..i])
    {
      assert entries[..i + 1][..i] == entries[..i];
      var fileName, recordedHash := entries[i].name, entries[i].value;
      var fullPath := Join(baseDir, fileName);
      if fullPath !in fs {
        mismatches := mismatches + [MismatchEntry(fileName, recordedHash, MissingMarker)];
        continue;
      }
      var current := ComputeFileHash(fs, fullPath, sha);
      if recordedHash != JStr(current.value) {
        mismatches := mismatches + [MismatchEntry(fileName, recordedHash, current.value)];
      }
    }
    assert entries[..|entries|] == entries;
    if mismatches != [] {
      if force {
        return Ok(Validation(mismatches, true));
      }
      return Ok(Validation(mismatches, false));
    }
    return Ok(Validation(mismatches, true));
  }

  // ---------------------------------------------------------------------
  // Properties

  /** The list is empty exactly when every recorded file exists and carries
      its recorded digest. */
  lemma {:induction false} FailuresEmptyIff(fs: FileSystem, dir: string, sha: Sha256, entries: seq<Field>)
    ensures Failures(fs, dir, sha, entries) == [] <==>
      forall i :: 0 <= i < |entries| ==> Matches(fs, dir, sha, entries[i])
  {
    if entries != [] {
      var n := |entries| - 1;
      var init := entries[..n];
      FailuresEmptyIff(fs, dir, sha, init);
      var head, last := Failures(fs, dir, sha, init), Failure(fs, dir, sha, entries[n]);
      assert Failures(fs, dir, sha, entries) == head + last;
      assert |head + last| == |head| + |last|;
      assert forall i :: 0 <= i < n ==> init[i] == entries[i];
    }
  }

  /** Passing without `force` means every recorded file exists and matches;
      with `force` a readable ledger always passes. */
  lemma PassedIff(fs: FileSystem, auditLogPath: string, baseDir: string, force: bool, decode: Decoder, sha: Sha256)
    requires RecordedFiles(fs, auditLogPath, decode).Ok?
    ensures var entries := RecordedFiles(fs, auditLogPath, decode).value;
      AuditVerdict(fs, auditLogPath, baseDir, force, decode, sha).value.passed <==>
      force || forall i :: 0 <= i < |entries| ==> Matches(fs, baseDir, sha, entries[i])
  {
    FailuresEmptyIff(fs, baseDir, sha, RecordedFiles(fs, auditLogPath, decode).value);
  }

  /** `main` exits with status 0 exactly when the ledger is readable and
      either `force` is set or every recorded file exists and matches. */
  lemma ExitStatusIff(fs: FileSystem, auditLogPath: string, baseDir: string, force: bool, decode: Decoder, sha: Sha256)
    ensures ExitStatus(AuditVerdict(fs, auditLogPath, baseDir, force, decode, sha)) == 0 <==>
      && RecordedFiles(fs, auditLogPath, decode).Ok?
      && (force || forall i :: 0 <= i < |RecordedFiles(fs, auditLogPath, decode).value| ==>
            Matches(fs, baseDir, sha, RecordedFiles(fs, auditLogPath, decode).value[i]))
  {
    if RecordedFiles(fs, auditLogPath, decode).Ok? {
      PassedIff(fs, auditLogPath, baseDir, force, decode, sha);
    }
  }

  /** A recorded file that is not there is listed with the "MISSING" marker,
      which no digest can be mistaken for. */
  lemma {:induction false} MissingFileIsMarked(fs: FileSystem, dir: string, sha: Sha256, entries: seq<Field>, i: int)
    requires 0 <= i < |entries| && Join(dir, entries[i].name) !in fs
    ensures MismatchEntry(entries[i].name, entries[i].value, MissingMarker) in Failures(fs, dir, sha, entries)
  {
    var n := |entries| - 1;
    if i < n {
      assert entries[..n][i] == entries[i];
      MissingFileIsMarked(fs, dir, sha, entries[..n], i);
    }
  }

  /** Every tuple comes from a recorded entry that disagrees with the file
      system, and its marker says which way. */
  lemma {:induction false} FailuresProvenance(fs: FileSystem, dir: string, sha: Sha256, entries: seq<Field>)
    ensures forall e :: e in Failures(fs, dir, sha, entries) ==>
      exists j :: 0 <= j < |entries| && entries[j].name == e.name && entries[j].value == e.recorded &&
        !Matches(fs, dir, sha, entries[j]) &&
        e.found == (if Join(dir, e.name) in fs then sha(fs[Join(dir, e.name)]) else MissingMarker)
  {
    if entries != [] {
      var n := |entries| - 1;
      FailuresProvenance(fs, dir, sha, entries[..n]);
      assert forall j :: 0 <= j < n ==> entries[..n][j] == entries[j];
    }
  }

  /** A ledger without a `files` member is an error, not an empty ledger. */
  lemma NoFilesMemberIsAnError(fs: FileSystem, auditLogPath: string, baseDir: string, force: bool, decode: Decoder, sha: Sha256, fields: seq<Field>)
    requires auditLogPath in fs && decode(fs[auditLogPath]) == Some(JObj(fields))
    requires Get(fields, "files").None?
    ensures AuditVerdict(fs, auditLogPath, baseDir, force, decode, sha) == Err(NoFilesKey)
    ensures ExitStatus(AuditVerdict(fs, auditLogPath, baseDir, force, decode, sha)) == 1
  {
  }
}
