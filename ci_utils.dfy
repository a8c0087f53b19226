/** validate_file_hashes: walks the ledger's recorded files and builds a
    dictionary from file name to what is wrong with it.  A missing ledger
    member `files` counts as no recorded files; a recorded file that is not
    there is reported without being hashed. */
module CiUtils {
  import opened Common
  import opened Json
  import opened Files
  import opened FileHash
  import opened Ledger

  /** The value the mismatch dictionary holds for one file name. */
  datatype Mismatch =
    | MissingFile                                 // "Missing file"
    | Changed(expected: Json, actual: HexDigest)  // {"expected": ..., "actual": ...}

  /** `audit_data.get("files", {}).items()`. */
  function StoredHashes(fs: FileSystem, auditLogPath: string, decode: Decoder): (r: Result<seq<Field>, LedgerError>)
    ensures r.Err? ==> r.error != NoFilesKey
  {
    match LoadJson(fs, auditLogPath, decode)
    case Err(e) => Err(Unreadable(e))
    case Ok(doc) =>
      if !doc.JObj? then Err(NotAnObject("audit log"))
      else match GetOr(doc.fields, "files", JObj([]))
        case JObj(entries) => Ok(entries)
        case _ => Err(NotAnObject("files"))
  }

  /** The dictionary after the loop has seen `entries`: each entry that
      disagrees with the file system assigns its name. */
  function Mismatches(fs: FileSystem, dir: string, sha: Sha256, entries: seq<Field>): map<string, Mismatch>
  {
    if entries == [] then map[]
    else
      var m := Mismatches(fs, dir, sha, entries[..|entries| - 1]);
      var e := entries[|entries| - 1];
      var path := Join(dir, e.name);
      if path !in fs then m[e.name := MissingFile]
      else if e.value == JStr(sha(fs[path])) then m
      else m[e.name := Changed(e.value, sha(fs[path]))]
  }

  /** validate_file_hashes(audit_log_path, output_dir). */
  method ValidateFileHashes(fs: FileSystem, auditLogPath: string, outputDir: string, decode: Decoder, sha: Sha256)
    returns (r: Result<map<string, Mismatch>, LedgerError>)
    ensures StoredHashes(fs, auditLogPath, decode).Err? ==> r == Err(StoredHashes(fs, auditLogPath, decode).error)
    ensures StoredHashes(fs, auditLogPath, decode).Ok? ==>
      r == Ok(Mismatches(fs, outputDir, sha, StoredHashes(fs, auditLogPath, decode).value))
  {
    var recorded := StoredHashes(fs, auditLogPath, decode);
    if recorded.Err? {
      return Err(recorded.error);
    }
    var entries := recorded.value;
    var mismatches: map<string, Mismatch> := map[];
    for i := 0 to |entries|
      invariant mismatches == Mismatches(fs, outputDir, sha, entries[..i])
    {
      assert entries[..i + 1][..i] == entries[..i];
      var filename, expected := entries[i].name, entries[i].value;
      var currentPath := Join(outputDir, filename);
      if currentPath !in fs {
        mismatches := mismatches[filename := MissingFile];
        continue;
      }
      var current := ComputeFileHash(fs, currentPath, sha);
      if expected != JStr(current.value) {
        mismatches := mismatches[filename := Changed(expected, current.value)];
      }
    }
    assert entries[..|entries|] == entries;
    return Ok(mismatches);
  }

  // ---------------------------------------------------------------------
  // Properties

  /** The names in the result are exactly the recorded names of entries
      that disagree with the file system. */
  lemma {:induction false} MismatchKeys(fs: FileSystem, dir: string, sha: Sha256, entries: seq<Field>)
    ensures forall k :: k in Mismatches(fs, dir, sha, entries) <==>
      exists i :: 0 <= i < |entries| && entries[i].name == k && !Matches(fs, dir, sha, entries[i])
  {
    if entries != [] {
      var n := |entries| - 1;
      var init := entries[..n];
      MismatchKeys(fs, dir, sha, init);
      MismatchesLast(fs, dir, sha, entries);
      forall k ensures k in Mismatches(fs, dir, sha, entries) <==>
        exists i :: 0 <= i < |entries| && entries[i].name == k && !Matches(fs, dir, sha, entries[i])
      {
        if k in Mismatches(fs, dir, sha, init) {
          var i :| 0 <= i < |init| && init[i].name == k && !Matches(fs, dir, sha, init[i]);
          assert entries[i] == init[i];
        }
      }
    }
  }

  /** The last entry assigns its own name, and only when it disagrees. */
  lemma MismatchesLast(fs: FileSystem, dir: string, sha: Sha256, entries: seq<Field>)
    requires entries != []
    ensures var e := entries[|entries| - 1];
      forall k :: k in Mismatches(fs, dir, sha, entries) <==>
        k in Mismatches(fs, dir, sha, entries[..|entries| - 1]) || (k == e.name && !Matches(fs, dir, sha, e))
  {
  }

  /** The dictionary is empty exactly when every recorded file exists and
      carries its recorded digest. */
  lemma MismatchesEmptyIff(fs: FileSystem, dir: string, sha: Sha256, entries: seq<Field>)
    ensures Mismatches(fs, dir, sha, entries) == map[] <==>
      forall i :: 0 <= i < |entries| ==> Matches(fs, dir, sha, entries[i])
  {
    MismatchKeys(fs, dir, sha, entries);
    var m := Mismatches(fs, dir, sha, entries);
    if m != map[] {
      var k :| k in m;
    } else {
      forall i | 0 <= i < |entries| ensures Matches(fs, dir, sha, entries[i]) {
        assert entries[i].name !in m;
      }
    }
  }

  /** With the distinct names of a JSON object, a missing file maps to
      "Missing file" and a changed one to its recorded and current digests. */
  lemma {:induction false} MismatchValue(fs: FileSystem, dir: string, sha: Sha256, entries: seq<Field>, i: int)
    requires DistinctNames(entries) && 0 <= i < |entries|
    ensures var m, e := Mismatches(fs, dir, sha, entries), entries[i];
      var path := Join(dir, e.name);
      && (path !in fs ==> e.name in m && m[e.name] == MissingFile)
      && (path in fs && e.value != JStr(sha(fs[path])) ==> e.name in m && m[e.name] == Changed(e.value, sha(fs[path])))
  {
    var n := |entries| - 1;
    if i < n {
      var init := entries[..n];
      assert init[i] == entries[i];
      assert DistinctNames(init);
      MismatchValue(fs, dir, sha, init, i);
      assert entries[n].name != entries[i].name;
    }
  }

  /** A ledger without a `files` member records nothing and verifies clean. */
  lemma NoFilesMember(fs: FileSystem, auditLogPath: string, decode: Decoder, fields: seq<Field>)
    requires auditLogPath in fs && decode(fs[auditLogPath]) == Some(JObj(fields))
    requires Get(fields, "files").None?
    ensures StoredHashes(fs, auditLogPath, decode) == Ok([])
  {
  }

  /** Round trip: the ledger a run writes over its three artifacts, read
      back from the file system that holds it, verifies to an empty
      dictionary. */
  lemma LedgerRoundTrip(fs: FileSystem, dir: string, sha: Sha256, encode: Encoder, decode: Decoder, runId: string, timestamp: string)
    requires LedgerEntries(fs, dir, TrackedFiles, sha).Ok?
    requires var doc := AuditLog(runId, timestamp, LedgerEntries(fs, dir, TrackedFiles, sha).value);
      decode(encode(doc)) == Some(doc)
    ensures var entries := LedgerEntries(fs, dir, TrackedFiles, sha).value;
      var written := fs[Join(dir, AuditLogFile) := encode(AuditLog(runId, timestamp, entries))];
      && StoredHashes(written, Join(dir, AuditLogFile), decode) == Ok(entries)
      && Mismatches(written, dir, sha, entries) == map[]
  {
    var entries := LedgerEntries(fs, dir, TrackedFiles, sha).value;
    var written := fs[Join(dir, AuditLogFile) := encode(AuditLog(runId, timestamp, entries))];
    AuditLogPathIsNotTracked(dir);
    assert forall i :: 0 <= i < |entries| ==> Matches(written, dir, sha, entries[i]);
    MismatchesEmptyIff(written, dir, sha, entries);
  }

  /** Changing the content of one tracked file, so that its digest changes,
      yields exactly one entry: that file, with its recorded and new digests. */
  lemma OneChangedFile(fs: FileSystem, dir: string, sha: Sha256, entries: seq<Field>, j: int, content: seq<Byte>)
    requires DistinctNames(entries) && 0 <= j < |entries|
    requires forall i :: 0 <= i < |entries| ==> Relative(entries[i].name) && Matches(fs, dir, sha, entries[i])
    requires Join(dir, entries[j].name) in fs && sha(content) != sha(fs[Join(dir, entries[j].name)])
    ensures var changed := fs[Join(dir, entries[j].name) := content];
      Mismatches(changed, dir, sha, entries) == map[entries[j].name := Changed(entries[j].value, sha(content))]
  {
    var p := Join(dir, entries[j].name);
    var changed := fs[p := content];
    forall i | 0 <= i < |entries| && i != j
      ensures Matches(changed, dir, sha, entries[i])
    {
      JoinInjective(dir, entries[i].name, entries[j].name);
    }
    var m := Mismatches(changed, dir, sha, entries);
    var name := entries[j].name;
    MismatchKeys(changed, dir, sha, entries);
    MismatchValue(changed, dir, sha, entries, j);
    assert !Matches(changed, dir, sha, entries[j]);
    forall k ensures k in m <==> k == name {
      if k in m {
        var i :| 0 <= i < |entries| && entries[i].name == k && !Matches(changed, dir, sha, entries[i]);
        assert i == j;
      }
    }
    SingletonMap(m, name, Changed(entries[j].value, sha(content)));
  }

  lemma SingletonMap<K, V>(m: map<K, V>, k: K, v: V)
    requires forall x :: x in m <==> x == k
    requires k in m && m[k] == v
    ensures m == map[k := v]
  {
  }
}
