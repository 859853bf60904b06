/** The checksum file as it is stored: paths joined by "/", digests, and JSON around them. */
module SnapshotFormat {
  import opened Wrappers
  import opened Text
  import opened Json
  import opened Hashing
  import opened Disk
  import opened JsonFile
  import opened SnapshotSeal
  import LiveSchema

  // ----- Paths as text -----

  /** `PurePosixPath(...).as_posix()`. */
  function Posix(p: Path): string {
    if p == [] then "" else if |p| == 1 then p[0] else p[0] + "/" + Posix(p[1..])
  }

  /** The text up to the first "/". */
  function FirstName(s: string): (n: nat)
    ensures n <= |s| && '/' !in s[..n] && (n < |s| ==> s[n] == '/')
  {
    if s == "" || s[0] == '/' then 0
    else
      var n := 1 + FirstName(s[1..]);
      assert s[..n] == [s[0]] + s[1..][..n - 1];
      n
  }

  function Split(s: string): Path
    decreases |s|
  {
    var n := FirstName(s);
    if n == |s| then [s] else [s[..n]] + Split(s[n + 1..])
  }

  lemma {:induction false} FirstNameOf(name: string, rest: string)
    requires '/' !in name
    ensures FirstName(name + "/" + rest) == |name|
    ensures FirstName(name) == |name|
  {
    if name == "" {
      assert (name + "/" + rest)[0] == '/';
    } else {
      var s := name + "/" + rest;
      assert s[0] == name[0] && s[1..] == name[1..] + "/" + rest;
      assert name[0] in name && forall c | c in name[1..] :: c in name;
      FirstNameOf(name[1..], rest);
    }
  }

  /** Paths of file names survive. */
  lemma {:induction false} SplitPosix(p: Path)
    requires Proper(p)
    ensures Split(Posix(p)) == p
  {
    assert FileName(p[0]);
    if |p| == 1 {
      FirstNameOf(p[0], "");
      assert p == [p[0]];
    } else {
      var rest := Posix(p[1..]);
      FirstNameOf(p[0], rest);
      var s := p[0] + "/" + rest;
      assert s[..|p[0]|] == p[0] && s[|p[0]| + 1..] == rest;
      SplitPosix(p[1..]);
      assert p == [p[0]] + p[1..];
    }
  }

  /** Other paths do not: two of them can look alike. */
  lemma JoinedNamesLookAlike(a: string, b: string)
    ensures Posix([a + "/" + b]) == Posix([a, b]) && [a + "/" + b] != [a, b]
  {
    assert Posix([a, b]) == a + "/" + Posix([a, b][1..]);
    assert [a, b][1..] == [b];
  }

  /** `_safe_snapshot_relative`, on the names of the path. */
  predicate Safe(p: Path) {
    && Proper(p) && |Posix(p)| <= 512
    && forall i | 0 <= i < |p| :: SafeName(p[i])
  }

  predicate SafeName(name: string) {
    name != "." && name != ".." && |name| <= 255 && ':' !in name && '\\' !in name && 0 as char !in name
  }

  // ----- The document -----

  /** A set in some order. */
  ghost function Listed(ps: set<Path>): (s: seq<Path>)
    ensures forall i | 0 <= i < |s| :: s[i] in ps
    ensures forall p | p in ps :: p in s
    ensures forall i, j | 0 <= i < j < |s| :: s[i] != s[j]
  {
    if ps == {} then []
    else
      var p :| p in ps;
      [p] + Listed(ps - {p})
  }

  /** The entries of a map, in some order. */
  ghost function Entries(m: map<Path, string>): (s: Sums)
    ensures Lists(s, m)
    ensures forall i, j | 0 <= i < j < |s| :: s[i].0 != s[j].0
  {
    var ps := Listed(m.Keys);
    var s := seq(|ps|, i requires 0 <= i < |ps| => (ps[i], m[ps[i]]));
    assert forall p | p in m :: p in ps;
    assert forall i | 0 <= i < |ps| :: s[i].0 == ps[i];
    s
  }

  function Members(s: Sums): (ms: seq<Member>)
    ensures |ms| == |s| && forall i | 0 <= i < |s| :: ms[i] == (Posix(s[i].0), JStr(s[i].1))
  {
    if s == [] then [] else [(Posix(s[0].0), JStr(s[0].1))] + Members(s[1..])
  }

  const VERSION := "loveengine.pilot-snapshot-checksums/1"

  function Document(s: Sums, version: string): Json {
    JObj([("schema_version", JStr(version)), ("files", JObj(Members(s)))])
  }

  /** The entries of the `files` object, if all values are text. Of two members with one key, Python's dictionary
      keeps the last. */
  function FilesOf(ms: seq<Member>): Option<Sums> {
    if ms == [] then Some([])
    else
      var rest := FilesOf(ms[1..]);
      if rest.None? || !ms[0].1.JStr? then None
      else if exists i | 0 < i < |ms| :: ms[i].0 == ms[0].0 then rest
      else Some([(Split(ms[0].0), ms[0].1.s)] + rest.value)
  }

  /** The document has exactly the two members of its schema, in either order. */
  function SumsOf(v: Json, version: string): Option<Sums> {
    if !v.JObj? || |v.members| != 2 then None
    else
      var i := if v.members[0].0 == "files" then 0 else 1;
      var files, schema := v.members[i], v.members[1 - i];
      if files.0 != "files" || schema != ("schema_version", JStr(version)) || !files.1.JObj? then None
      else FilesOf(files.1.members)
  }

  ghost function WriteSums(m: map<Path, string>): bytes {
    WriteJson(Document(Entries(m), VERSION))
  }

  function ReadSums(data: bytes): Option<Sums> {
    var v := ReadJson(data);
    if v.None? then None else SumsOf(v.value, VERSION)
  }

  lemma {:induction false} FilesReadBack(s: Sums)
    requires forall i | 0 <= i < |s| :: Proper(s[i].0)
    requires forall i, j | 0 <= i < j < |s| :: s[i].0 != s[j].0
    ensures FilesOf(Members(s)) == Some(s)
  {
    if s != [] {
      var ms := Members(s);
      FilesReadBack(s[1..]);
      assert ms[1..] == Members(s[1..]);
      SplitPosix(s[0].0);
      forall i | 0 < i < |ms|
        ensures ms[i].0 != ms[0].0
      {
        SplitPosix(s[i].0);
      }
      assert s == [s[0]] + s[1..];
    }
  }

  lemma DocumentReadBack(s: Sums, version: string)
    requires FilesOf(Members(s)) == Some(s)
    ensures SumsOf(Document(s, version), version) == Some(s)
  {
    assert "schema_version"[0] == 's' && "files"[0] == 'f';
  }

  /** The checksum file is read back entry for entry. */
  lemma SumsReadBack(m: map<Path, string>)
    requires ProperKeys(m)
    ensures ReadSums(WriteSums(m)).Some? && Lists(ReadSums(WriteSums(m)).value, m)
  {
    var s := Entries(m);
    ReadUndoesWrite(Document(s, VERSION));
    FilesReadBack(s);
    DocumentReadBack(s, VERSION);
  }

  // ----- The format is lawful -----

  /** `^sha256:[0-9a-f]{64}$` as a full match. */
  predicate DigestText(d: string) {
    |d| == 71 && LiveSchema.Sha256Text(d)
  }

  lemma ShaIsDigestText(h: Hashes, data: bytes)
    requires |h.sha256(data)| == 32
    ensures DigestText(h.Sha256Prefixed(data))
  {
    var x, d := Hex(h.sha256(data)), h.Sha256Prefixed(data);
    LiveSchema.HexIsHex(h.sha256(data));
    HexIsLower(h.sha256(data));
    assert d == "sha256:" + x && |d| == 71;
    assert d[70] == x[63] && d[..7] == "sha256:";
    assert forall i | 7 <= i < 71 :: d[i] == x[i - 7] && LowerChar(x[i - 7]) == Lower(x)[i - 7];
    assert LiveSchema.BeforeFinalBreak(d) == d;
  }

  /** The format of the repository, given its content checks. */
  ghost function RepositoryFormats(h: Hashes, manifestOk: bytes -> bool, sqliteOk: bytes -> bool,
                                   auditOk: bytes -> bool, stateOk: bytes -> bool): Formats
  {
    Formats(data => h.Sha256Prefixed(data), (m: map<Path, string>) => WriteSums(m), (b: bytes) => ReadSums(b),
            (p: Path) => Safe(p), (d: string) => DigestText(d), manifestOk, sqliteOk, auditOk, stateOk)
  }

  /** Letters and points, and not only a point or two. */
  predicate PlainName(name: string) {
    3 <= |name| <= 255 && forall i | 0 <= i < |name| :: 'a' <= name[i] <= 'z' || name[i] == '.'
  }

  lemma PlainIsSafe(name: string)
    requires PlainName(name)
    ensures SafeName(name)
  {
    assert |"."| == 1 && |".."| == 2;
  }

  lemma {:induction false} PosixLength(p: Path, n: nat)
    requires forall i | 0 <= i < |p| :: |p[i]| <= n
    ensures |Posix(p)| <= |p| * (n + 1)
  {
    if |p| > 1 {
      PosixLength(p[1..], n);
      assert |p| * (n + 1) == (|p| - 1) * (n + 1) + (n + 1);
    }
  }

  lemma RequiredName(p: Path, i: nat)
    requires p in Required() && i < |p|
    ensures PlainName(p[i]) && |p[i]| <= 15
  {
    assert PlainName("data") && PlainName("chain") && PlainName("manifest.json") && PlainName("pilot.sqlite");
    assert PlainName("relay.sqlite") && PlainName("audit.jsonl") && PlainName("deployment.json")
      && PlainName("state.json");
  }

  lemma RequiredSafe(p: Path)
    requires p in Required()
    ensures Safe(p)
  {
    RequiredProper();
    forall i | 0 <= i < |p|
      ensures |p[i]| <= 15 && SafeName(p[i])
    {
      RequiredName(p, i);
      PlainIsSafe(p[i]);
    }
    PosixLength(p, 15);
  }

  /** So everything proved of a lawful format holds of the repository's own, for every SHA-256 of 32 bytes. */
  lemma RepositoryLawful(h: Hashes, manifestOk: bytes -> bool, sqliteOk: bytes -> bool, auditOk: bytes -> bool,
                         stateOk: bytes -> bool)
    requires forall d :: |h.sha256(d)| == 32
    ensures RepositoryFormats(h, manifestOk, sqliteOk, auditOk, stateOk).Lawful()
  {
    var f := RepositoryFormats(h, manifestOk, sqliteOk, auditOk, stateOk);
    forall m | ProperKeys(m)
      ensures f.readSums(f.writeSums(m)).Some? && Lists(f.readSums(f.writeSums(m)).value, m)
    {
      SumsReadBack(m);
    }
    forall d
      ensures f.digestText(f.sha(d))
    {
      ShaIsDigestText(h, d);
    }
    forall p | p in Required()
      ensures f.safe(p)
    {
      RequiredSafe(p);
    }
  }
}
