/** `create_system_snapshot` and `verify_system_snapshot` on the files of a snapshot, by their relative paths,
    and what a restore of a created snapshot brings back. */
module SnapshotSeal {
  import opened Wrappers
  import opened Text
  import opened Disk
  import SnapshotStaging
  import SnapshotRestore

  type Files = map<Path, bytes>

  type Sums = seq<(Path, string)>

  /** Formats and hashes: the checksum file in both directions, the syntax of paths and digests, the manifest,
      and the content checks. */
  datatype Formats = Formats(sha: bytes -> string, writeSums: map<Path, string> -> bytes,
                             readSums: bytes -> Option<Sums>, safe: Path -> bool, digestText: string -> bool,
                             manifestOk: bytes -> bool,
                             sqliteOk: bytes -> bool, auditOk: bytes -> bool, stateOk: bytes -> bool)
  {
    /** A written checksum file is read back entry for entry, digests look like digests, and the fixed paths are
        safe ones. `SnapshotFormat` proves all three of the format the repository uses. */
    ghost predicate Lawful() {
      && (forall m | ProperKeys(m) :: readSums(writeSums(m)).Some? && Lists(readSums(writeSums(m)).value, m))
      && (forall d :: digestText(sha(d)))
      && (forall p | p in Required() :: safe(p))
    }
  }

  /** The path of a file below a directory, in file names. */
  predicate Proper(p: Path) {
    p != [] && forall i | 0 <= i < |p| :: FileName(p[i])
  }

  predicate FileName(name: string) {
    name != "" && '/' !in name
  }

  ghost predicate ProperKeys(m: map<Path, string>) {
    forall p | p in m :: Proper(p)
  }

  /** The entries are those of the map. */
  ghost predicate Lists(s: Sums, m: map<Path, string>) {
    && (forall i | 0 <= i < |s| :: s[i].0 in m && m[s[i].0] == s[i].1)
    && (forall p | p in m :: exists i | 0 <= i < |s| :: s[i].0 == p)
  }

  function Self(): Path { ["checksums.json"] }

  function Manifest(): Path { ["manifest.json"] }

  function Pilot(): Path { ["data", "pilot.sqlite"] }

  function Relay(): Path { ["data", "relay.sqlite"] }

  function Audit(): Path { ["data", "audit.jsonl"] }

  function Deployment(): Path { ["data", "chain", "deployment.json"] }

  function State(): Path { ["data", "chain", "state.json"] }

  function Artifacts(): Path { ["data", "artifacts"] }

  /** `REQUIRED_SNAPSHOT_FILES`. */
  function Required(): set<Path> {
    {Manifest(), Pilot(), Relay(), Audit(), Deployment(), State()}
  }

  function Sources(s: Sums): set<Path> {
    set i | 0 <= i < |s| :: s[i].0
  }

  predicate EntryOk(f: Formats, files: Files, p: Path, digest: string) {
    f.safe(p) && f.digestText(digest) && p in files && f.sha(files[p]) == digest
  }

  predicate ContentsOk(f: Formats, files: Files)
    requires Required() <= files.Keys
  {
    && f.manifestOk(files[Manifest()]) && f.sqliteOk(files[Pilot()]) && f.sqliteOk(files[Relay()])
    && f.auditOk(files[Audit()]) && f.stateOk(files[Deployment()]) && f.stateOk(files[State()])
  }

  /** What a snapshot must be: every file but the checksum file is listed with its digest, nothing else is
      listed, the required files are there, and their contents pass their checks. */
  predicate Sealed(f: Formats, files: Files) {
    && Self() in files && f.readSums(files[Self()]).Some?
    && SealedBy(f, files, f.readSums(files[Self()]).value)
  }

  predicate SealedBy(f: Formats, files: Files, sums: Sums) {
    && sums != []
    && (forall i | 0 <= i < |sums| :: EntryOk(f, files, sums[i].0, sums[i].1))
    && Sources(sums) == files.Keys - {Self()}
    && Required() <= files.Keys && ContentsOk(f, files)
  }

  /** `verify_system_snapshot`, on the files found below the snapshot and whether `data/artifacts` is a directory. */
  method VerifySystemSnapshot(f: Formats, files: Files, artifactsDirectory: bool) returns (ok: bool)
    ensures ok <==> Sealed(f, files) && artifactsDirectory
  {
    if Self() !in files || f.readSums(files[Self()]).None? {
      return false;
    }
    var sums := f.readSums(files[Self()]).value;
    if sums == [] || Self() in Sources(sums) {
      return false;
    }
    for i := 0 to |sums|
      invariant forall k | 0 <= k < i :: EntryOk(f, files, sums[k].0, sums[k].1)
    {
      if !EntryOk(f, files, sums[i].0, sums[i].1) {
        return false;
      }
    }
    ListedFilesExist(f, files, sums);
    Listing(files, sums);
    if files.Keys - (Sources(sums) + {Self()}) != {} || !(Required() <= Sources(sums)) || !artifactsDirectory {
      return false;
    }
    ok := ContentsOk(f, files);
  }

  lemma ListedFilesExist(f: Formats, files: Files, sums: Sums)
    requires forall i | 0 <= i < |sums| :: EntryOk(f, files, sums[i].0, sums[i].1)
    ensures Sources(sums) <= files.Keys
  {
  }

  /** Nothing unlisted and nothing required missing: the list is the files but itself. */
  lemma Listing(files: Files, sums: Sums)
    requires Sources(sums) <= files.Keys && Self() !in Sources(sums)
    ensures (files.Keys - (Sources(sums) + {Self()}) == {} && Required() <= Sources(sums)
             <==> Sources(sums) == files.Keys - {Self()} && Required() <= files.Keys)
  {
    SelfNotRequired();
    var rest := files.Keys - {Self()};
    assert files.Keys - (Sources(sums) + {Self()}) == rest - Sources(sums);
    if rest - Sources(sums) == {} {
      forall p
        ensures p in Sources(sums) <==> p in rest
      {
        assert p in rest && p !in Sources(sums) ==> p in rest - Sources(sums);
      }
    }
  }

  lemma SelfNotRequired()
    ensures Self() !in Required()
  {
    assert |"checksums.json"| == 14 && |"manifest.json"| == 13;
  }

  // ----- Creating -----

  /** What is backed up; the artifacts are all files below the artifact directory. */
  datatype Captured = Captured(database: bytes, relay: bytes, audit: bytes, deployment: bytes, state: bytes,
                               artifacts: Files)

  /** The files below `data/artifacts`. */
  function Placed(artifacts: Files): (r: Files)
    ensures forall p :: p in r <==> Artifacts() <= p && p[2..] in artifacts
    ensures forall p | p in artifacts :: Artifacts() + p in r && r[Artifacts() + p] == artifacts[p]
  {
    var r := map q | q in (set p | p in artifacts :: Artifacts() + p) :: artifacts[q[2..]];
    assert forall p | Artifacts() <= p :: p == Artifacts() + p[2..];
    r
  }

  /** The fixed files of a snapshot. */
  function Fixed(c: Captured, manifest: bytes): Files {
    map[Manifest() := manifest, Pilot() := c.database, Relay() := c.relay, Audit() := c.audit,
        Deployment() := c.deployment, State() := c.state]
  }

  function DataFiles(c: Captured, manifest: bytes): Files {
    Placed(c.artifacts) + Fixed(c, manifest)
  }

  /** `_checksums`, which skips every file named `checksums.json`, at any depth. */
  function Checksums(f: Formats, files: Files): map<Path, string> {
    map p | p in files && !NamedChecksums(p) :: f.sha(files[p])
  }

  predicate NamedChecksums(p: Path) {
    p != [] && p[|p| - 1] == "checksums.json"
  }

  function SnapshotFiles(f: Formats, c: Captured, manifest: bytes): Files {
    DataFiles(c, manifest)[Self() := f.writeSums(Checksums(f, DataFiles(c, manifest)))]
  }

  /** The artifact paths are paths of files, below the artifact directory. */
  predicate ProperPaths(artifacts: Files) {
    forall p | p in artifacts :: Proper(p)
  }

  /** What a caller can check before: content that passes, artifact paths that are safe and none of them named
      like the checksum file. */
  predicate Sealable(f: Formats, c: Captured, manifest: bytes) {
    && f.manifestOk(manifest) && f.sqliteOk(c.database) && f.sqliteOk(c.relay) && f.auditOk(c.audit)
    && f.stateOk(c.deployment) && f.stateOk(c.state)
    && (forall p | p in c.artifacts :: f.safe(Artifacts() + p) && !NamedChecksums(p))
  }

  lemma FixedPaths()
    ensures forall p | p in Required() :: p != [] && p != Self() && !NamedChecksums(p) && !(Artifacts() <= p)
    ensures !(Artifacts() <= Self())
  {
    forall p | p in Required()
      ensures p != [] && p != Self() && !NamedChecksums(p) && !(Artifacts() <= p)
    {
      var last := p[|p| - 1];
      assert p == Manifest() || p == Pilot() || p == Relay() || p == Audit() || p == Deployment() || p == State();
      assert |last| == 13 || |last| == 12 || |last| == 11 || |last| == 15 || |last| == 10;
      assert |"checksums.json"| == 14;
      assert |p| >= 2 ==> |p[1]| == 12 || |p[1]| == 11 || |p[1]| == 5;
      assert |"artifacts"| == 9;
    }
  }

  lemma NamedBelow(p: Path)
    requires p != []
    ensures NamedChecksums(Artifacts() + p) <==> NamedChecksums(p)
  {
    assert (Artifacts() + p)[|Artifacts() + p| - 1] == p[|p| - 1];
  }

  lemma DataFilesAre(c: Captured, manifest: bytes)
    ensures forall p :: p in DataFiles(c, manifest) <==> p in Required() || p in Placed(c.artifacts)
    ensures forall p | p in Placed(c.artifacts) ::
            p !in Required() && DataFiles(c, manifest)[p] == Placed(c.artifacts)[p]
    ensures Self() !in DataFiles(c, manifest)
  {
    FixedPaths();
    assert Fixed(c, manifest).Keys == Required();
  }

  /** The files whose name the checksum map skips make the difference. */
  lemma AllSummed(f: Formats, c: Captured, manifest: bytes)
    requires ProperPaths(c.artifacts)
    ensures (Checksums(f, DataFiles(c, manifest)).Keys == DataFiles(c, manifest).Keys
             <==> forall p | p in c.artifacts :: !NamedChecksums(p))
  {
    DataFilesAre(c, manifest);
    FixedPaths();
    var files := DataFiles(c, manifest);
    forall p | p in c.artifacts
      ensures NamedChecksums(Artifacts() + p) <==> NamedChecksums(p)
      ensures Artifacts() + p in files
    {
      NamedBelow(p);
    }
    if forall p | p in c.artifacts :: !NamedChecksums(p) {
      forall q | q in files
        ensures !NamedChecksums(q)
      {
        if q in Placed(c.artifacts) {
          assert q == Artifacts() + q[2..];
        }
      }
    } else {
      var p :| p in c.artifacts && NamedChecksums(p);
      assert Artifacts() + p in files && Artifacts() + p !in Checksums(f, files);
    }
  }

  lemma NamesAreProper()
    ensures FileName("data") && FileName("chain") && FileName("artifacts") && FileName("manifest.json")
    ensures FileName("pilot.sqlite") && FileName("relay.sqlite") && FileName("audit.jsonl")
    ensures FileName("deployment.json") && FileName("state.json")
  {
  }

  lemma RequiredProper()
    ensures forall p | p in Required() :: Proper(p)
  {
    NamesAreProper();
  }

  lemma PlacedProper(artifacts: Files, q: Path)
    requires ProperPaths(artifacts) && q in Placed(artifacts)
    ensures Proper(q)
  {
    NamesAreProper();
    assert q == Artifacts() + q[2..] && Proper(q[2..]);
    assert q[0] == "data" && q[1] == "artifacts" && forall i | 2 <= i < |q| :: q[i] == q[2..][i - 2];
  }

  lemma SummedProper(f: Formats, c: Captured, manifest: bytes)
    requires ProperPaths(c.artifacts)
    ensures ProperKeys(Checksums(f, DataFiles(c, manifest)))
  {
    DataFilesAre(c, manifest);
    RequiredProper();
    forall p | p in Checksums(f, DataFiles(c, manifest))
      ensures Proper(p)
    {
      if p in Placed(c.artifacts) {
        PlacedProper(c.artifacts, p);
      }
    }
  }

  lemma SumsRead(f: Formats, c: Captured, manifest: bytes)
    requires f.Lawful() && ProperPaths(c.artifacts)
    ensures f.readSums(SnapshotFiles(f, c, manifest)[Self()]).Some?
    ensures (Sources(f.readSums(SnapshotFiles(f, c, manifest)[Self()]).value)
             == Checksums(f, DataFiles(c, manifest)).Keys)
  {
    SummedProper(f, c, manifest);
    var m := Checksums(f, DataFiles(c, manifest));
    var sums := f.readSums(f.writeSums(m)).value;
    forall p
      ensures p in Sources(sums) <==> p in m
    {
    }
  }

  lemma ContentsAre(f: Formats, c: Captured, manifest: bytes)
    ensures Required() <= SnapshotFiles(f, c, manifest).Keys
    ensures (ContentsOk(f, SnapshotFiles(f, c, manifest)) <==>
             (f.manifestOk(manifest) && f.sqliteOk(c.database) && f.sqliteOk(c.relay) && f.auditOk(c.audit)
              && f.stateOk(c.deployment) && f.stateOk(c.state)))
  {
    DataFilesAre(c, manifest);
    var files := SnapshotFiles(f, c, manifest);
    FixedPaths();
    FixedValues(c, manifest);
    forall p | p in Required()
      ensures p in files && files[p] == Fixed(c, manifest)[p]
    {
    }
  }

  lemma FixedValues(c: Captured, manifest: bytes)
    ensures Fixed(c, manifest).Keys == Required()
    ensures Fixed(c, manifest)[Manifest()] == manifest && Fixed(c, manifest)[Pilot()] == c.database
    ensures Fixed(c, manifest)[Relay()] == c.relay && Fixed(c, manifest)[Audit()] == c.audit
    ensures Fixed(c, manifest)[Deployment()] == c.deployment && Fixed(c, manifest)[State()] == c.state
  {
    assert Pilot()[1] == "pilot.sqlite" && Relay()[1] == "relay.sqlite" && Audit()[1] == "audit.jsonl";
    assert "pilot.sqlite"[0] == 'p' && "relay.sqlite"[0] == 'r' && |"audit.jsonl"| == 11 && |"pilot.sqlite"| == 12;
    assert |"relay.sqlite"| == 12;
    assert Deployment()[2] == "deployment.json" && State()[2] == "state.json";
    assert |"deployment.json"| == 15 && |"state.json"| == 10;
  }

  lemma EntriesOk(f: Formats, c: Captured, manifest: bytes)
    requires f.Lawful() && ProperPaths(c.artifacts)
    ensures ((forall p | p in Checksums(f, DataFiles(c, manifest)) ::
                EntryOk(f, SnapshotFiles(f, c, manifest), p, Checksums(f, DataFiles(c, manifest))[p]))
             <==> forall p | p in c.artifacts && !NamedChecksums(p) :: f.safe(Artifacts() + p))
  {
    var data := DataFiles(c, manifest);
    var m, files := Checksums(f, data), SnapshotFiles(f, c, manifest);
    DataFilesAre(c, manifest);
    forall p | p in m
      ensures EntryOk(f, files, p, m[p]) <==> f.safe(p)
      ensures p !in Required() ==>
        |p| >= 2 && p == Artifacts() + p[2..] && p[2..] in c.artifacts && !NamedChecksums(p[2..])
    {
      assert p != Self();
      if p !in Required() {
        assert p == Artifacts() + p[2..];
        NamedBelow(p[2..]);
      }
    }
    forall p | p in c.artifacts && !NamedChecksums(p)
      ensures Artifacts() + p in m
    {
      NamedBelow(p);
    }
  }

  /** The entries of the written checksum file. */
  ghost function WrittenSums(f: Formats, c: Captured, manifest: bytes): (s: Sums)
    requires f.Lawful() && ProperPaths(c.artifacts)
    ensures f.readSums(SnapshotFiles(f, c, manifest)[Self()]) == Some(s)
    ensures Lists(s, Checksums(f, DataFiles(c, manifest)))
  {
    SummedProper(f, c, manifest);
    f.readSums(f.writeSums(Checksums(f, DataFiles(c, manifest)))).value
  }

  lemma SourcesMatch(f: Formats, c: Captured, manifest: bytes)
    requires f.Lawful() && ProperPaths(c.artifacts)
    ensures (Sources(WrittenSums(f, c, manifest)) == SnapshotFiles(f, c, manifest).Keys - {Self()}
             <==> forall p | p in c.artifacts :: !NamedChecksums(p))
  {
    SumsRead(f, c, manifest);
    AllSummed(f, c, manifest);
    DataFilesAre(c, manifest);
    assert SnapshotFiles(f, c, manifest).Keys - {Self()} == DataFiles(c, manifest).Keys;
  }

  lemma EntriesMatch(f: Formats, c: Captured, manifest: bytes)
    requires f.Lawful() && ProperPaths(c.artifacts)
    ensures ((forall i | 0 <= i < |WrittenSums(f, c, manifest)| ::
                EntryOk(f, SnapshotFiles(f, c, manifest), WrittenSums(f, c, manifest)[i].0,
                        WrittenSums(f, c, manifest)[i].1))
             <==> forall p | p in c.artifacts && !NamedChecksums(p) :: f.safe(Artifacts() + p))
  {
    EntriesOk(f, c, manifest);
    EntriesOfSums(f, SnapshotFiles(f, c, manifest), WrittenSums(f, c, manifest), Checksums(f, DataFiles(c, manifest)));
  }

  /** A snapshot just created verifies exactly when it was sealable: no artifact may be called
      `checksums.json`, at any depth, because the checksum map skips it and verification does not. */
  lemma CreatedVerifies(f: Formats, c: Captured, manifest: bytes)
    requires f.Lawful() && ProperPaths(c.artifacts)
    ensures Sealed(f, SnapshotFiles(f, c, manifest)) <==> Sealable(f, c, manifest)
  {
    SourcesMatch(f, c, manifest);
    EntriesMatch(f, c, manifest);
    ContentsAre(f, c, manifest);
    ManifestListed(f, c, manifest);
    SealedByWritten(f, SnapshotFiles(f, c, manifest), WrittenSums(f, c, manifest));
  }

  lemma SealedByWritten(f: Formats, files: Files, sums: Sums)
    requires Self() in files && f.readSums(files[Self()]) == Some(sums) && Required() <= files.Keys
    ensures (Sealed(f, files) <==>
             (sums != [] && (forall i | 0 <= i < |sums| :: EntryOk(f, files, sums[i].0, sums[i].1))
              && Sources(sums) == files.Keys - {Self()} && ContentsOk(f, files)))
  {
  }

  lemma EntriesOfSums(f: Formats, files: Files, sums: Sums, m: map<Path, string>)
    requires Lists(sums, m)
    ensures ((forall i | 0 <= i < |sums| :: EntryOk(f, files, sums[i].0, sums[i].1))
             <==> forall p | p in m :: EntryOk(f, files, p, m[p]))
  {
    forall p | p in m
      ensures exists i | 0 <= i < |sums| :: sums[i] == (p, m[p])
    {
      var i :| 0 <= i < |sums| && sums[i].0 == p;
      assert sums[i] == (p, m[p]);
    }
  }

  /** The list is not empty: it has the manifest at least. */
  lemma ManifestListed(f: Formats, c: Captured, manifest: bytes)
    requires f.Lawful() && ProperPaths(c.artifacts)
    ensures f.readSums(f.writeSums(Checksums(f, DataFiles(c, manifest)))).Some?
    ensures f.readSums(f.writeSums(Checksums(f, DataFiles(c, manifest)))).value != []
  {
    SummedProper(f, c, manifest);
    FixedPaths();
    DataFilesAre(c, manifest);
    assert Manifest() in Required();
    assert Manifest() in Checksums(f, DataFiles(c, manifest));
  }

  /** `create_system_snapshot`: the files of the new snapshot, or nothing when any input is missing or any
      check fails, in which case the directory is removed again. `None` is a missing input. */
  method CreateSystemSnapshot(f: Formats, database: Option<bytes>, relay: Option<bytes>, audit: Option<bytes>,
                              deployment: Option<bytes>, state: Option<bytes>, artifacts: Files, manifest: bytes)
    returns (r: Option<Files>)
    requires f.Lawful() && ProperPaths(artifacts)
    ensures (r.Some? <==>
             (database.Some? && relay.Some? && audit.Some? && deployment.Some? && state.Some?
              && Sealable(f,
                          Captured(database.value, relay.value, audit.value, deployment.value, state.value, artifacts),
                          manifest)))
    ensures (r.Some? ==> Sealed(f, r.value) && r.value == SnapshotFiles(f,
               Captured(database.value, relay.value, audit.value, deployment.value, state.value, artifacts), manifest))
  {
    if database.None? || !f.sqliteOk(database.value) || relay.None? || !f.sqliteOk(relay.value) {
      return None;
    }
    if audit.None? || !f.auditOk(audit.value) {
      return None;
    }
    if deployment.None? || !f.stateOk(deployment.value) || state.None? || !f.stateOk(state.value) {
      return None;
    }
    var c := Captured(database.value, relay.value, audit.value, deployment.value, state.value, artifacts);
    var data := DataFiles(c, manifest);
    var files := data[Self() := f.writeSums(Checksums(f, data))];
    CreatedVerifies(f, c, manifest);
    var ok := VerifySystemSnapshot(f, files, true);
    r := if ok then Some(files) else None;
  }

  /** The checksum file determines every other file of a snapshot, unless two files collide. */
  lemma SealDetermines(f: Formats, a: Files, b: Files)
    requires Sealed(f, a) && Sealed(f, b) && a[Self()] == b[Self()]
    ensures a == b || exists p | p in a && p in b :: a[p] != b[p] && f.sha(a[p]) == f.sha(b[p])
  {
    var sums := f.readSums(a[Self()]).value;
    assert a.Keys == Sources(sums) + {Self()} && b.Keys == Sources(sums) + {Self()};
    if a != b {
      var p :| p in a && p in b && a[p] != b[p];
      assert p in Sources(sums);
      var i :| 0 <= i < |sums| && sums[i].0 == p;
      assert EntryOk(f, a, sums[i].0, sums[i].1) && EntryOk(f, b, sums[i].0, sums[i].1);
    }
  }

  // ----- Restoring what was created -----

  /** The files at and below a directory of the volume. */
  ghost predicate Holds(f: Tree, root: Path, files: Files) {
    forall p | p != [] :: (IsFile(f(root + p)) <==> p in files) && (p in files ==> f(root + p) == Some(File(files[p])))
  }

  lemma FixedRestored(fm: Formats, c: Captured, manifest: bytes, f: Tree, g: Tree, snapshot: Path, d: Path, p: Path)
    requires Holds(f, snapshot, SnapshotFiles(fm, c, manifest)) && p in Required()
    requires SameTree(g, d, f, snapshot + p)
    ensures p in Fixed(c, manifest) && g(d) == Some(File(Fixed(c, manifest)[p]))
  {
    DataFilesAre(c, manifest);
    FixedPaths();
    FixedValues(c, manifest);
    SameTreeAt(g, d, f, snapshot + p, []);
    assert d + [] == d && snapshot + p + [] == snapshot + p;
    assert SnapshotFiles(fm, c, manifest)[p] == Fixed(c, manifest)[p];
  }

  lemma ArtifactsRestored(fm: Formats, c: Captured, manifest: bytes, f: Tree, g: Tree, snapshot: Path, d: Path)
    requires Holds(f, snapshot, SnapshotFiles(fm, c, manifest)) && SameTree(g, d, f, snapshot + Artifacts())
    ensures Holds(g, d, c.artifacts)
  {
    forall p | p != []
      ensures (IsFile(g(d + p)) <==> p in c.artifacts) && (p in c.artifacts ==> g(d + p) == Some(File(c.artifacts[p])))
    {
      ArtifactRestored(fm, c, manifest, f, g, snapshot, d, p);
    }
  }

  lemma ArtifactRestored(fm: Formats, c: Captured, manifest: bytes, f: Tree, g: Tree, snapshot: Path, d: Path, p: Path)
    requires Holds(f, snapshot, SnapshotFiles(fm, c, manifest)) && SameTree(g, d, f, snapshot + Artifacts())
    requires p != []
    ensures (IsFile(g(d + p)) <==> p in c.artifacts) && (p in c.artifacts ==> g(d + p) == Some(File(c.artifacts[p])))
  {
    ArtifactFile(fm, c, manifest, p);
    SameTreeAt(g, d, f, snapshot + Artifacts(), p);
    HeldBelow(f, snapshot, SnapshotFiles(fm, c, manifest), Artifacts(), p);
  }

  lemma HeldBelow(f: Tree, root: Path, files: Files, a: Path, p: Path)
    requires Holds(f, root, files) && p != []
    ensures IsFile(f(root + a + p)) <==> a + p in files
    ensures a + p in files ==> f(root + a + p) == Some(File(files[a + p]))
  {
    assert root + a + p == root + (a + p);
    assert a + p != [];
  }

  lemma ArtifactFile(fm: Formats, c: Captured, manifest: bytes, p: Path)
    requires p != []
    ensures Artifacts() + p in SnapshotFiles(fm, c, manifest) <==> p in c.artifacts
    ensures p in c.artifacts ==> SnapshotFiles(fm, c, manifest)[Artifacts() + p] == c.artifacts[p]
  {
    DataFilesAre(c, manifest);
    FixedPaths();
    var q := Artifacts() + p;
    assert q[2..] == p && Artifacts() <= q;
  }

  /** Create, then restore: a successful restore of a created snapshot gives back the two databases, the audit
      log and the chain state byte for byte, and exactly the captured artifacts. */
  lemma RestoreReproduces(fm: Formats, c: Captured, manifest: bytes, f: Tree, g: Tree, snapshot: Path,
                          plan: seq<SnapshotStaging.Request>, i: nat)
    requires Holds(f, snapshot, SnapshotFiles(fm, c, manifest))
    requires SnapshotRestore.AllRestored(f, g, plan) && i < |plan|
    ensures plan[i].source == snapshot + Pilot() ==> g(plan[i].destination) == Some(File(c.database))
    ensures plan[i].source == snapshot + Relay() ==> g(plan[i].destination) == Some(File(c.relay))
    ensures plan[i].source == snapshot + Audit() ==> g(plan[i].destination) == Some(File(c.audit))
    ensures plan[i].source == snapshot + Deployment() ==> g(plan[i].destination) == Some(File(c.deployment))
    ensures plan[i].source == snapshot + State() ==> g(plan[i].destination) == Some(File(c.state))
    ensures plan[i].source == snapshot + Artifacts() ==> Holds(g, plan[i].destination, c.artifacts)
  {
    FixedValues(c, manifest);
    var d := plan[i].destination;
    forall p | p in Required() && plan[i].source == snapshot + p
      ensures p in Fixed(c, manifest) && g(d) == Some(File(Fixed(c, manifest)[p]))
    {
      FixedRestored(fm, c, manifest, f, g, snapshot, d, p);
    }
    if plan[i].source == snapshot + Artifacts() {
      ArtifactsRestored(fm, c, manifest, f, g, snapshot, d);
    }
  }

  /** The plan of a restore reads exactly these six sources. */
  lemma PlanSources(snapshot: Path, database: Path, relay: Path, artifacts: Path, audit: Path, chain: Path,
                    sqliteOk: bytes -> bool, auditOk: bytes -> bool, stateOk: bytes -> bool)
    ensures var plan := SnapshotStaging.RestorePlan(snapshot, database, relay, artifacts, audit, chain, sqliteOk,
                                                    auditOk, stateOk);
      && plan[0].source == snapshot + Pilot() && plan[0].destination == database
      && plan[1].source == snapshot + Relay() && plan[1].destination == relay
      && plan[2].source == snapshot + Audit() && plan[2].destination == audit
      && plan[3].source == snapshot + Deployment() && plan[3].destination == chain + ["deployment.json"]
      && plan[4].source == snapshot + State() && plan[4].destination == chain + ["state.json"]
      && plan[5].source == snapshot + Artifacts() && plan[5].destination == artifacts
  {
    assert snapshot + ["data"] + ["pilot.sqlite"] == snapshot + Pilot();
    assert snapshot + ["data"] + ["relay.sqlite"] == snapshot + Relay();
    assert snapshot + ["data"] + ["audit.jsonl"] == snapshot + Audit();
    assert snapshot + ["data"] + ["chain", "deployment.json"] == snapshot + Deployment();
    assert snapshot + ["data"] + ["chain", "state.json"] == snapshot + State();
    assert snapshot + ["data"] + ["artifacts"] == snapshot + Artifacts();
  }
}
