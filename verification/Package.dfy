/** `package.py`: a release archive is a sealed set of files, and installing it keeps the seal. */
module Package {
  import opened Wrappers
  import opened Text

  /** A safe archive path by its parts. */
  type Name = seq<string>

  type Files = map<Name, bytes>

  /** The parsed `checksums.json`, in the order of its entries. */
  datatype Checksums = Checksums(schemaOk: bool, entries: seq<(Name, string)>)

  /** The parts of the check that depend on formats alone: path, digest and hash syntax, the hashes, JSON, the
      manifest and release checks, the size limits, and the deterministic ZIP encoding of a set of files. */
  datatype Rules = Rules(safe: Name -> bool, digestText: string -> bool, hashText: string -> bool,
                         sha: bytes -> string, keccak: bytes -> string,
                         parse: bytes -> Option<Checksums>, required: set<Name>, metadataOk: Files -> bool,
                         withinLimits: Files -> bool, zip: Files -> bytes)

  datatype PackageError =
    | Invalid
    | Unsafe
    | Missing
    | Unchecked
    | Mismatch
    | Metadata
    | TooLarge
    | NotDeterministic
    | TrustRequired
    | TrustMode
    | TrustHash
    | HashMismatch
    | TargetNotEmpty
    | WriteFailed

  const SELF: Name := ["checksums.json"]

  function Keys(entries: seq<(Name, string)>): set<Name> {
    set i | 0 <= i < |entries| :: entries[i].0
  }

  /** What every entry of the map must be. */
  predicate WellFormed(rules: Rules, sums: Checksums) {
    && sums.schemaOk && sums.entries != [] && SELF !in Keys(sums.entries)
    && (forall i | 0 <= i < |sums.entries| :: rules.safe(sums.entries[i].0) && rules.digestText(sums.entries[i].1))
  }

  /** `_validate_checksum_map`: a well-formed map is accepted exactly when it lists all files but itself. */
  method ValidateChecksumMap(rules: Rules, sums: Checksums, names: set<Name>) returns (error: Option<PackageError>)
    ensures error.None? <==> WellFormed(rules, sums) && Keys(sums.entries) == names - {SELF}
    ensures error == Some(Missing) <==> WellFormed(rules, sums) && !(Keys(sums.entries) <= names)
  {
    if !sums.schemaOk || sums.entries == [] || SELF in Keys(sums.entries) {
      return Some(Invalid);
    }
    var validated: set<Name> := {};
    for i := 0 to |sums.entries|
      invariant validated == Keys(sums.entries[..i])
      invariant forall k | 0 <= k < i :: rules.safe(sums.entries[k].0) && rules.digestText(sums.entries[k].1)
    {
      if !rules.safe(sums.entries[i].0) {
        return Some(Unsafe);
      }
      if !rules.digestText(sums.entries[i].1) {
        return Some(Invalid);
      }
      validated := validated + {sums.entries[i].0};
      KeysOn(sums.entries, i);
    }
    assert sums.entries[..|sums.entries|] == sums.entries;
    if validated - names != {} {
      var n :| n in validated - names;
      return Some(Missing);
    }
    assert forall n | n in validated :: n in validated - names || n in names;
    assert validated <= names;
    if names - {SELF} - validated != {} {
      var n :| n in names - {SELF} - validated;
      return Some(Unchecked);
    }
    if validated - (names - {SELF}) != {} {
      return Some(Invalid);
    }
    return None;
  }

  lemma KeysOn(entries: seq<(Name, string)>, i: nat)
    requires i < |entries|
    ensures Keys(entries[..i + 1]) == Keys(entries[..i]) + {entries[i].0}
  {
    forall n
      ensures n in Keys(entries[..i + 1]) <==> n in Keys(entries[..i]) + {entries[i].0}
    {
      if n in Keys(entries[..i]) {
        var k :| 0 <= k < i && entries[..i][k].0 == n;
        assert entries[..i + 1][k].0 == n;
      }
      if n == entries[i].0 {
        assert entries[..i + 1][i].0 == n;
      }
    }
  }

  /** Every listed digest is that of the file. */
  predicate DigestsMatch(rules: Rules, sums: Checksums, files: Files) {
    forall i | 0 <= i < |sums.entries| && sums.entries[i].0 in files ::
      rules.sha(files[sums.entries[i].0]) == sums.entries[i].1
  }

  /** A set of files carries its own seal. */
  predicate Sealed(rules: Rules, files: Files) {
    && rules.required <= files.Keys && SELF in files && rules.parse(files[SELF]).Some?
    && SealedBy(rules, rules.parse(files[SELF]).value, files)
    && rules.metadataOk(files) && rules.withinLimits(files)
    && (forall n | n in files :: rules.safe(n))
  }

  predicate SealedBy(rules: Rules, sums: Checksums, files: Files) {
    WellFormed(rules, sums) && Keys(sums.entries) == files.Keys - {SELF} && DigestsMatch(rules, sums, files)
  }

  /** The checks that archive and installed tree have in common, on the files found. */
  method CheckFiles(rules: Rules, files: Files) returns (error: Option<PackageError>)
    requires forall n | n in files :: rules.safe(n)
    ensures error.None? <==> Sealed(rules, files)
  {
    if !rules.withinLimits(files) {
      return Some(TooLarge);
    }
    if !(rules.required <= files.Keys) {
      return Some(Missing);
    }
    if SELF !in files || rules.parse(files[SELF]).None? {
      return Some(Invalid);
    }
    var sums := rules.parse(files[SELF]).value;
    error := ValidateChecksumMap(rules, sums, files.Keys);
    if error.Some? {
      return;
    }
    for i := 0 to |sums.entries|
      invariant forall k | 0 <= k < i && sums.entries[k].0 in files ::
        rules.sha(files[sums.entries[k].0]) == sums.entries[k].1
    {
      assert sums.entries[i].0 in Keys(sums.entries);
      if rules.sha(files[sums.entries[i].0]) != sums.entries[i].1 {
        return Some(Mismatch);
      }
    }
    if !rules.metadataOk(files) {
      return Some(Metadata);
    }
    return None;
  }

  // ----- The archive -----

  datatype Entry = Entry(name: Name, content: bytes, directory: bool, symlink: bool, encrypted: bool)

  datatype Archive = Archive(raw: bytes, entries: seq<Entry>)

  function FilesOf(entries: seq<Entry>): (files: Files)
    ensures forall n :: n in files <==> exists i | 0 <= i < |entries| :: entries[i].name == n
  {
    if entries == [] then map[]
    else
      var front := entries[..|entries| - 1];
      assert forall i | 0 <= i < |front| :: front[i] == entries[i];
      FilesOf(front)[entries[|entries| - 1].name := entries[|entries| - 1].content]
  }

  predicate PlainEntry(rules: Rules, e: Entry) {
    rules.safe(e.name) && !e.directory && !e.symlink && !e.encrypted
  }

  predicate PlainEntries(rules: Rules, entries: seq<Entry>) {
    && (forall i | 0 <= i < |entries| :: PlainEntry(rules, entries[i]))
    && (forall i, j | 0 <= i < j < |entries| :: entries[i].name != entries[j].name)
  }

  /** An archive is accepted when its files are sealed and its bytes are the one encoding of these files. */
  predicate Genuine(rules: Rules, a: Archive) {
    && PlainEntries(rules, a.entries) && Sealed(rules, FilesOf(a.entries))
    && rules.zip(FilesOf(a.entries)) == a.raw
  }

  lemma PlainOn(rules: Rules, entries: seq<Entry>, i: nat)
    requires i < |entries| && PlainEntries(rules, entries[..i])
    ensures (PlainEntries(rules, entries[..i + 1])
             <==> PlainEntry(rules, entries[i]) && entries[i].name !in FilesOf(entries[..i]))
    ensures PlainEntries(rules, entries) ==> PlainEntries(rules, entries[..i + 1])
    ensures FilesOf(entries[..i + 1]) == FilesOf(entries[..i])[entries[i].name := entries[i].content]
  {
    var front, more := entries[..i], entries[..i + 1];
    assert more[..i] == front && more[i] == entries[i];
    assert forall k | 0 <= k < i :: more[k] == front[k];
    if entries[i].name in FilesOf(front) {
      var k :| 0 <= k < |front| && front[k].name == entries[i].name;
      assert more[k].name == more[i].name;
    } else {
      forall k | 0 <= k < i
        ensures more[k].name != more[i].name
      {
        assert front[k].name in FilesOf(front);
      }
    }
  }

  /** The loop over the archive's entries (lines 549-575). */
  method ReadEntries(rules: Rules, entries: seq<Entry>) returns (r: Result<Files, PackageError>)
    ensures r.Ok? <==> PlainEntries(rules, entries)
    ensures r.Ok? ==> r.value == FilesOf(entries)
  {
    var files: Files := map[];
    for i := 0 to |entries|
      invariant files == FilesOf(entries[..i])
      invariant PlainEntries(rules, entries[..i])
    {
      PlainOn(rules, entries, i);
      var e := entries[i];
      if !rules.safe(e.name) {
        return Err(Unsafe);
      }
      if e.directory || e.symlink || e.encrypted || e.name in files {
        return Err(Invalid);
      }
      files := files[e.name := e.content];
    }
    assert entries[..|entries|] == entries;
    r := Ok(files);
  }

  /** `_read_verified_archive`. */
  method ReadVerifiedArchive(rules: Rules, a: Archive) returns (r: Result<Files, PackageError>)
    ensures r.Ok? <==> Genuine(rules, a)
    ensures r.Ok? ==> r.value == FilesOf(a.entries)
  {
    r := ReadEntries(rules, a.entries);
    if r.Err? {
      return;
    }
    NamesSafe(rules, a.entries);
    var error := CheckFiles(rules, r.value);
    if error.Some? {
      return Err(error.value);
    }
    if rules.zip(r.value) != a.raw {
      return Err(NotDeterministic);
    }
  }

  lemma NamesSafe(rules: Rules, entries: seq<Entry>)
    requires PlainEntries(rules, entries)
    ensures forall n | n in FilesOf(entries) :: rules.safe(n)
  {
    forall n | n in FilesOf(entries)
      ensures rules.safe(n)
    {
      var i :| 0 <= i < |entries| && entries[i].name == n;
    }
  }

  // ----- The installed tree -----

  /** Where the walk of `package_self_check` does not descend. */
  predicate IgnoredDirectory(dir: Name)
    requires dir != []
  {
    (|dir| == 1 && dir[0] == ".venv")
    || dir[|dir| - 1] in {"__pycache__", ".mypy_cache", ".pytest_cache", ".ruff_cache"}
  }

  /** The walk reaches a directory when it reaches its parent and does not skip it there. */
  predicate Reached(dir: Name) {
    dir == [] || (Reached(dir[..|dir| - 1]) && !IgnoredDirectory(dir))
  }

  predicate Seen(n: Name) {
    n != [] && Reached(n[..|n| - 1])
  }

  /** A file is seen exactly when none of the directories above it is ignored. */
  lemma {:induction false} SeenIff(n: Name)
    requires n != []
    ensures Seen(n) <==> forall k | 0 < k < |n| :: !IgnoredDirectory(n[..k])
  {
    var up := n[..|n| - 1];
    ReachedIff(up);
    if Seen(n) {
      forall k | 0 < k < |n|
        ensures !IgnoredDirectory(n[..k])
      {
        assert up[..k] == n[..k];
      }
    } else {
      var k :| 0 < k <= |up| && IgnoredDirectory(up[..k]);
      assert up[..k] == n[..k];
    }
  }

  lemma {:induction false} ReachedIff(dir: Name)
    ensures Reached(dir) <==> forall k | 0 < k <= |dir| :: !IgnoredDirectory(dir[..k])
  {
    if dir != [] {
      var up := dir[..|dir| - 1];
      ReachedIff(up);
      assert dir[..|dir|] == dir;
      forall k | 0 < k <= |up|
        ensures up[..k] == dir[..k]
      {
      }
      if Reached(dir) {
        forall k | 0 < k <= |dir|
          ensures !IgnoredDirectory(dir[..k])
        {
          assert k < |dir| ==> up[..k] == dir[..k];
        }
      } else if !Reached(up) {
        var k :| 0 < k <= |up| && IgnoredDirectory(up[..k]);
        assert up[..k] == dir[..k];
      }
    }
  }

  function SeenFiles(files: Files): Files {
    map n | n in files && Seen(n) :: files[n]
  }

  datatype Trust = Bound(hash: string) | IntegrityOnly

  predicate Trusted(trust: Trust, hash: string) {
    trust.Bound? ==> Lower(hash) == Lower(trust.hash)
  }

  /** What a caller may ask for: a hash in its format, or the integrity check alone. */
  predicate RequestOk(rules: Rules, expected: Option<string>, integrityOnly: bool) {
    expected.Some? != integrityOnly && (expected.Some? ==> rules.hashText(expected.value))
  }

  function TrustOf(expected: Option<string>): Trust {
    if expected.Some? then Bound(expected.value) else IntegrityOnly
  }

  /** `_validate_trust_request`: trust is never waived by leaving the hash out, and a hash is never ignored. */
  method ValidateTrustRequest(rules: Rules, expected: Option<string>, integrityOnly: bool)
    returns (r: Result<Trust, PackageError>)
    ensures r.Ok? <==> RequestOk(rules, expected, integrityOnly)
    ensures r.Ok? ==> r.value == TrustOf(expected) && (r.value == IntegrityOnly <==> integrityOnly)
    ensures r == Err(TrustRequired) <==> expected.None? && !integrityOnly
    ensures r == Err(TrustMode) <==> expected.Some? && integrityOnly
  {
    if expected.None? && !integrityOnly {
      return Err(TrustRequired);
    }
    if expected.Some? && integrityOnly {
      return Err(TrustMode);
    }
    if expected.Some? && !rules.hashText(expected.value) {
      return Err(TrustHash);
    }
    r := Ok(if expected.Some? then Bound(expected.value) else IntegrityOnly);
  }

  /** `verify_package`: the hash of an archive that is genuine and trusted. */
  method VerifyPackage(rules: Rules, a: Archive, expected: Option<string>, integrityOnly: bool)
    returns (r: Result<string, PackageError>)
    ensures (r.Ok? <==> RequestOk(rules, expected, integrityOnly) && Genuine(rules, a)
                        && Trusted(TrustOf(expected), rules.keccak(a.raw)))
    ensures r.Ok? ==> r.value == rules.keccak(a.raw)
  {
    var trust := ValidateTrustRequest(rules, expected, integrityOnly);
    if trust.Err? {
      return Err(trust.error);
    }
    var read := ReadVerifiedArchive(rules, a);
    if read.Err? {
      return Err(read.error);
    }
    if !Trusted(trust.value, rules.keccak(a.raw)) {
      return Err(HashMismatch);
    }
    r := Ok(rules.keccak(a.raw));
  }

  /** `package_self_check`, after its request, on the files below a directory: the hash of the archive
      they would make. */
  method SelfCheck(rules: Rules, files: Files, trust: Trust) returns (r: Result<string, PackageError>)
    ensures r.Ok? <==> Sealed(rules, SeenFiles(files)) && Trusted(trust, rules.keccak(rules.zip(SeenFiles(files))))
    ensures r.Ok? ==> r.value == rules.keccak(rules.zip(SeenFiles(files)))
  {
    var seen := SeenFiles(files);
    if exists n | n in seen :: !rules.safe(n) {
      return Err(Unsafe);
    }
    var error := CheckFiles(rules, seen);
    if error.Some? {
      return Err(error.value);
    }
    var hash := rules.keccak(rules.zip(seen));
    if !Trusted(trust, hash) {
      return Err(HashMismatch);
    }
    r := Ok(hash);
  }

  // ----- Installing -----

  /** The parent of the installation: `target` is absent, or a directory with these files. */
  class Site {
    var target: Option<Files>
    var staging: Option<Files>

    constructor (target: Option<Files>)
      ensures this.target == target && staging == None
    {
      this.target, this.staging := target, None;
    }
  }

  /** Writing a file needs its directories, and no file may stand where one is needed or the other way round. */
  predicate Writable(files: Files, n: Name) {
    forall m | m in files :: !(m < n) && !(n < m)
  }

  predicate PrefixFree(names: set<Name>) {
    forall m, n | m in names && n in names :: !(m < n)
  }

  predicate AllSeen(files: Files) {
    forall n | n in files :: Seen(n)
  }

  /** Lines 738-744: every entry is written below the staging directory. */
  method WriteAll(site: Site, entries: seq<Entry>) returns (ok: bool)
    requires site.staging == Some(map[])
    modifies site`staging
    ensures ok <==> PrefixFree(FilesOf(entries).Keys)
    ensures site.staging.Some? && (ok ==> site.staging.value == FilesOf(entries))
  {
    for i := 0 to |entries|
      invariant site.staging == Some(FilesOf(entries[..i]))
      invariant PrefixFree(FilesOf(entries[..i]).Keys)
    {
      var e := entries[i];
      assert entries[..i + 1][..i] == entries[..i];
      var files := site.staging.value;
      if !Writable(files, e.name) {
        var m :| m in files && (m < e.name || e.name < m);
        var k :| 0 <= k < i && entries[..i][k].name == m;
        assert entries[k].name == m && entries[i].name == e.name;
        assert m in FilesOf(entries) && e.name in FilesOf(entries);
        return false;
      }
      site.staging := Some(files[e.name := e.content]);
    }
    assert entries[..|entries|] == entries;
    ok := true;
  }

  lemma SealedSkips(rules: Rules, files: Files)
    requires Sealed(rules, files)
    ensures Sealed(rules, SeenFiles(files)) <==> AllSeen(files)
  {
    var seen := SeenFiles(files);
    assert SELF[..0] == [];
    assert Seen(SELF) && seen[SELF] == files[SELF];
    forall n | n in files
      ensures Sealed(rules, seen) ==> Seen(n)
    {
      if n != SELF {
        assert n in Keys(rules.parse(files[SELF]).value.entries);
      }
    }
    if AllSeen(files) {
      assert seen == files;
    }
  }

  /** `install_package` once its request is checked. It succeeds exactly when the archive is genuine and trusted,
      the target is free, no entry is a directory of another, and no entry lies where the self-check would not
      look; the installed files are then those of the archive. Otherwise the target is as before, and staging
      is gone. The inner self-check is given the hash just computed, which has its format. */
  method InstallTrusted(rules: Rules, a: Archive, site: Site, trust: Trust) returns (r: Result<string, PackageError>)
    requires site.staging == None
    modifies site
    ensures (r.Ok? <==>
             (Genuine(rules, a) && Trusted(trust, rules.keccak(a.raw))
              && (old(site.target) == None || old(site.target) == Some(map[]))
              && PrefixFree(FilesOf(a.entries).Keys) && AllSeen(FilesOf(a.entries))))
    ensures r.Ok? ==> site.target == Some(FilesOf(a.entries)) && r.value == rules.keccak(a.raw)
    ensures r.Err? ==> site.target == old(site.target)
    ensures site.staging == None
  {
    var read := ReadVerifiedArchive(rules, a);
    if read.Err? {
      return Err(read.error);
    }
    if site.target.Some? && site.target.value != map[] {
      return Err(TargetNotEmpty);
    }
    if !Trusted(trust, rules.keccak(a.raw)) {
      return Err(HashMismatch);
    }
    site.staging := Some(map[]);
    var written := WriteAll(site, a.entries);
    if !written {
      site.staging := None;
      return Err(WriteFailed);
    }
    SealedSkips(rules, read.value);
    assert AllSeen(read.value) ==> SeenFiles(read.value) == read.value;
    var checked := SelfCheck(rules, site.staging.value, BoundAgain(trust, rules.keccak(a.raw)));
    if checked.Err? {
      site.staging := None;
      return Err(checked.error);
    }
    site.target := site.staging;
    site.staging := None;
    r := Ok(checked.value);
  }

  /** `install_package`. */
  method InstallPackage(rules: Rules, a: Archive, site: Site, expected: Option<string>, integrityOnly: bool)
    returns (r: Result<string, PackageError>)
    requires site.staging == None
    modifies site
    ensures (r.Ok? <==>
             (RequestOk(rules, expected, integrityOnly)
              && Genuine(rules, a) && Trusted(TrustOf(expected), rules.keccak(a.raw))
              && (old(site.target) == None || old(site.target) == Some(map[]))
              && PrefixFree(FilesOf(a.entries).Keys) && AllSeen(FilesOf(a.entries))))
    ensures r.Ok? ==> site.target == Some(FilesOf(a.entries)) && r.value == rules.keccak(a.raw)
    ensures r.Err? ==> site.target == old(site.target)
    ensures site.staging == None
  {
    var trust := ValidateTrustRequest(rules, expected, integrityOnly);
    if trust.Err? {
      return Err(trust.error);
    }
    r := InstallTrusted(rules, a, site, trust.value);
  }

  /** The self-check of an installation binds the hash just read when the request was bound. */
  function BoundAgain(trust: Trust, hash: string): Trust {
    if trust.Bound? then Bound(hash) else IntegrityOnly
  }

  /** A self-check of the installed tree accepts it again under the same hash, and that is the hash of the
      archive: installing and checking lose and add nothing. */
  lemma InstalledChecksAgain(rules: Rules, a: Archive)
    requires Genuine(rules, a) && AllSeen(FilesOf(a.entries))
    ensures SeenFiles(FilesOf(a.entries)) == FilesOf(a.entries)
    ensures Sealed(rules, SeenFiles(FilesOf(a.entries)))
    ensures rules.keccak(rules.zip(SeenFiles(FilesOf(a.entries)))) == rules.keccak(a.raw)
  {
    assert SeenFiles(FilesOf(a.entries)) == FilesOf(a.entries);
  }

  /** Caches that appear later under the ignored names do not break the seal. */
  lemma CachesDoNotMatter(rules: Rules, files: Files, extra: Files)
    requires AllSeen(files) && forall n | n in extra :: !Seen(n)
    ensures SeenFiles(files + extra) == files
  {
  }

  /** Install, then check, with caches that have appeared in between under the ignored names: the self-check
      accepts the tree and gives the hash the installation gave, which is that of the archive. */
  method InstallThenCheck(rules: Rules, a: Archive, site: Site, expected: Option<string>, integrityOnly: bool,
                          caches: Files)
    returns (r: Result<string, PackageError>, again: Result<string, PackageError>)
    requires site.staging == None && forall n | n in caches :: !Seen(n)
    modifies site
    ensures r.Ok? ==> again == r && r.value == rules.keccak(a.raw)
    ensures r.Err? ==> site.target == old(site.target)
  {
    r := InstallPackage(rules, a, site, expected, integrityOnly);
    again := r;
    if r.Ok? {
      InstalledChecksAgain(rules, a);
      CachesDoNotMatter(rules, site.target.value, caches);
      var trust := ValidateTrustRequest(rules, expected, integrityOnly);
      again := SelfCheck(rules, site.target.value + caches, trust.value);
    }
  }

  /** Two trees sealed by one `checksums.json` are the same files, unless two of them collide under SHA-256. */
  lemma ChecksumsDetermineFiles(rules: Rules, f: Files, g: Files)
    requires Sealed(rules, f) && Sealed(rules, g) && f[SELF] == g[SELF]
    ensures f == g || exists n | n in f && n in g :: f[n] != g[n] && rules.sha(f[n]) == rules.sha(g[n])
  {
    var sums := rules.parse(f[SELF]).value;
    assert f.Keys == Keys(sums.entries) + {SELF} && g.Keys == Keys(sums.entries) + {SELF};
    if f != g {
      var n :| n in f && n in g && f[n] != g[n];
      assert n in Keys(sums.entries);
      var i :| 0 <= i < |sums.entries| && sums.entries[i].0 == n;
      assert rules.sha(f[n]) == sums.entries[i].1 == rules.sha(g[n]);
    }
  }

  // ----- Archives that verify and do not install -----

  /** A genuine archive with a file the self-check does not see: it verifies, and however it is requested its
      installation is refused and leaves nothing. */
  method HiddenEntryRefused(rules: Rules, a: Archive, site: Site, expected: Option<string>, integrityOnly: bool)
    returns (verified: Result<string, PackageError>, installed: Result<string, PackageError>)
    requires Genuine(rules, a) && PrefixFree(FilesOf(a.entries).Keys) && !AllSeen(FilesOf(a.entries))
    requires RequestOk(rules, expected, integrityOnly) && Trusted(TrustOf(expected), rules.keccak(a.raw))
    requires site.staging == None
    modifies site
    ensures verified.Ok? && installed.Err? && site.target == old(site.target) && site.staging == None
  {
    verified := VerifyPackage(rules, a, expected, integrityOnly);
    installed := InstallPackage(rules, a, site, expected, integrityOnly);
  }

  /** The files with one more below `.venv`, and a seal that lists it. */
  function Hide(files: Files, below: Name, content: bytes, seal: bytes): Files {
    files[SELF := seal][[".venv"] + below := content]
  }

  lemma HiddenIsNotSeen(below: Name)
    requires below != []
    ensures !Seen([".venv"] + below) && [".venv"] + below != SELF
  {
    var n := [".venv"] + below;
    SeenIff(n);
    assert n[..1] == [".venv"] && IgnoredDirectory(n[..1]);
  }

  /** Nothing else lies below `.venv`, so no name becomes a directory of another. */
  lemma HidingKeepsPrefixFree(names: set<Name>, below: Name)
    requires PrefixFree(names) && SELF in names && forall n | n in names && n != [] :: n[0] != ".venv"
    ensures PrefixFree(names + {[".venv"] + below})
  {
    var hidden := [".venv"] + below;
    forall n | n in names
      ensures !(n < hidden) && !(hidden < n)
    {
      assert n == [] ==> n < SELF;
    }
  }

  lemma KeysWith(entries: seq<(Name, string)>, entry: (Name, string))
    ensures Keys(entries + [entry]) == Keys(entries) + {entry.0}
  {
    var more := entries + [entry];
    assert more[..|entries|] == entries && more[..|entries| + 1] == more;
    KeysOn(more, |entries|);
  }

  lemma HidingKeepsSeal(rules: Rules, files: Files, sums: Checksums, below: Name, content: bytes, seal: bytes)
    requires SELF in files && SealedBy(rules, sums, files) && below != [] && [".venv"] + below !in files
    requires rules.safe([".venv"] + below) && rules.digestText(rules.sha(content))
    ensures SealedBy(rules, sums.(entries := sums.entries + [([".venv"] + below, rules.sha(content))]),
                     Hide(files, below, content, seal))
  {
    var hidden := [".venv"] + below;
    var more := sums.entries + [(hidden, rules.sha(content))];
    HiddenIsNotSeen(below);
    KeysWith(sums.entries, (hidden, rules.sha(content)));
    forall i | 0 <= i < |more|
      ensures more[i].0 in Hide(files, below, content, seal)
      ensures rules.sha(Hide(files, below, content, seal)[more[i].0]) == more[i].1
    {
      if i < |sums.entries| {
        assert more[i] == sums.entries[i] && more[i].0 in Keys(sums.entries);
      }
    }
  }

  /** The one archive of a sealed set of files. */
  lemma GenuineArchive(rules: Rules, files: Files) returns (a: Archive)
    requires Sealed(rules, files)
    ensures Genuine(rules, a) && FilesOf(a.entries) == files
  {
    var entries := EntriesFor(rules, files);
    a := Archive(rules.zip(files), entries);
  }

  lemma OneMoreEntry(rules: Rules, front: seq<Entry>, e: Entry)
    requires PlainEntries(rules, front) && PlainEntry(rules, e) && e.name !in FilesOf(front)
    ensures PlainEntries(rules, front + [e]) && FilesOf(front + [e]) == FilesOf(front)[e.name := e.content]
  {
    var entries := front + [e];
    assert entries[..|front|] == front && entries[..|front| + 1] == entries;
    PlainOn(rules, entries, |front|);
  }

  lemma WithoutOne(files: Files, n: Name)
    requires n in files
    ensures n !in files - {n} && |files - {n}| < |files| && (files - {n})[n := files[n]] == files
  {
    assert (files - {n}).Keys == files.Keys - {n};
  }

  lemma {:induction false} EntriesFor(rules: Rules, files: Files) returns (entries: seq<Entry>)
    requires forall n | n in files :: rules.safe(n)
    ensures PlainEntries(rules, entries) && FilesOf(entries) == files
    decreases |files|
  {
    if files == map[] {
      entries := [];
    } else {
      var n :| n in files;
      WithoutOne(files, n);
      var front := EntriesFor(rules, files - {n});
      var e := Entry(n, files[n], false, false, false);
      OneMoreEntry(rules, front, e);
      entries := front + [e];
    }
  }

  /** Such archives exist for every release: take any sealed files that do not use `.venv`, whatever paths they
      must hold, add a file with a safe name below it, and list that file in `checksums.json`. If the new
      `checksums.json` parses and the metadata and the limits still hold, the archive of these files is one. */
  lemma HiddenEntryExists(rules: Rules, files: Files, below: Name, content: bytes, seal: bytes)
    returns (a: Archive)
    requires Sealed(rules, files) && PrefixFree(files.Keys) && forall n | n in files && n != [] :: n[0] != ".venv"
    requires below != [] && rules.safe([".venv"] + below) && rules.digestText(rules.sha(content))
    requires var sums := rules.parse(files[SELF]).value;
             rules.parse(seal) == Some(sums.(entries := sums.entries + [([".venv"] + below, rules.sha(content))]))
    requires var hiding := Hide(files, below, content, seal); rules.metadataOk(hiding) && rules.withinLimits(hiding)
    ensures FilesOf(a.entries) == Hide(files, below, content, seal)
    ensures Genuine(rules, a) && PrefixFree(FilesOf(a.entries).Keys) && !AllSeen(FilesOf(a.entries))
  {
    var hiding := Hide(files, below, content, seal);
    HiddenIsNotSeen(below);
    assert [".venv"] + below !in files;
    HidingKeepsSeal(rules, files, rules.parse(files[SELF]).value, below, content, seal);
    HidingKeepsPrefixFree(files.Keys, below);
    assert hiding.Keys == files.Keys + {[".venv"] + below};
    a := GenuineArchive(rules, hiding);
    assert !Seen([".venv"] + below) && [".venv"] + below in hiding;
  }
}
