/** Create a snapshot, restore it: both operations together, on one volume. */
module SnapshotRoundTrip {
  import opened Wrappers
  import opened Text
  import opened Disk
  import opened SnapshotStaging
  import opened SnapshotRestore
  import opened SnapshotSeal

  // ----- The snapshot on the volume -----

  predicate HasBelow(files: Files, p: Path) {
    exists k | k in files :: p < k
  }

  /** What lies at a path of the snapshot: its files, the directories above them, and `data/artifacts`. */
  function NodeOf(files: Files, p: Path): Option<Node> {
    if p in files then Some(File(files[p]))
    else if p == [] || p == Artifacts() || HasBelow(files, p) then Some(Dir)
    else None
  }

  /** The volume once the snapshot is written to `root`, the directories above it included. */
  function Planted(f: Tree, root: Path, files: Files): Tree {
    (q: Path) => if root <= q then NodeOf(files, q[|root|..]) else if q < root then Some(Dir) else f(q)
  }

  /** No file lies below another one, nor where the snapshot has a directory. */
  ghost predicate TreeLike(files: Files) {
    && (forall p, q | p in files && q in files :: !(p < q))
    && [] !in files && Artifacts() !in files && HasBelow(files, Artifacts()[..1])
  }

  lemma NodeFiles(files: Files, p: Path)
    ensures IsFile(NodeOf(files, p)) <==> p in files
    ensures p in files ==> NodeOf(files, p) == Some(File(files[p]))
  {
  }

  lemma NodeAbove(files: Files, p: Path, q: Path)
    requires TreeLike(files) && p < q && NodeOf(files, q).Some?
    ensures NodeOf(files, p) == Some(Dir)
  {
    if q in files {
      assert HasBelow(files, p);
    } else if q == Artifacts() {
      assert p == [] || p == Artifacts()[..1];
      var k :| k in files && Artifacts()[..1] < k;
      assert p < k;
    } else {
      var k :| k in files && q < k;
      assert p < k;
    }
    assert p !in files;
  }

  lemma PlantedWellFormed(f: Tree, root: Path, files: Files)
    requires WellFormed(f) && TreeLike(files)
    ensures WellFormed(Planted(f, root, files))
  {
    var g := Planted(f, root, files);
    forall p, q | p < q && g(q).Some?
      ensures g(p) == Some(Dir)
    {
      if root <= q {
        ComparablePrefixes(root, p, q);
        if root <= p {
          assert q[|root|..][..|p| - |root|] == p[|root|..];
          NodeAbove(files, p[|root|..], q[|root|..]);
        } else {
          assert p < root;
        }
      } else if q < root {
        assert p < root;
      } else {
        assert f(p) == Some(Dir);
      }
    }
  }

  lemma PlantedHolds(f: Tree, root: Path, files: Files)
    ensures Holds(Planted(f, root, files), root, files)
  {
    var g := Planted(f, root, files);
    forall p | p != []
      ensures (IsFile(g(root + p)) <==> p in files) && (p in files ==> g(root + p) == Some(File(files[p])))
    {
      assert root <= root + p && (root + p)[|root|..] == p;
      NodeFiles(files, p);
    }
  }

  // ----- The files of a snapshot form a tree -----

  /** Artifact files do not lie below one another. */
  ghost predicate Directories(artifacts: Files) {
    forall p, q | p in artifacts && q in artifacts :: !(p < q)
  }

  /** The names that tell the parts of a snapshot apart. */
  lemma NamesDiffer()
    ensures "data" != "manifest.json" && "data" != "checksums.json" && "manifest.json" != "checksums.json"
    ensures "pilot.sqlite" != "relay.sqlite" && "pilot.sqlite" != "audit.jsonl" && "pilot.sqlite" != "chain"
    ensures "relay.sqlite" != "audit.jsonl" && "relay.sqlite" != "chain" && "audit.jsonl" != "chain"
    ensures "artifacts" != "pilot.sqlite" && "artifacts" != "relay.sqlite" && "artifacts" != "audit.jsonl"
    ensures "artifacts" != "chain" && "deployment.json" != "state.json"
  {
    assert |"data"| == 4 && |"manifest.json"| == 13 && |"checksums.json"| == 14 && |"pilot.sqlite"| == 12;
    assert |"relay.sqlite"| == 12 && |"audit.jsonl"| == 11 && |"chain"| == 5 && |"artifacts"| == 9;
    assert |"deployment.json"| == 15 && |"state.json"| == 10 && "pilot.sqlite"[0] == 'p' && "relay.sqlite"[0] == 'r';
  }

  /** Where a file of a snapshot can lie. */
  predicate Place(p: Path, artifact: bool) {
    if artifact then Artifacts() < p else p == Self() || p in Required()
  }

  lemma NestedAgrees(p: Path, q: Path)
    ensures p < q ==> (|p| > 0 ==> p[0] == q[0]) && (|p| > 1 ==> p[1] == q[1]) && (|p| > 2 ==> p[2] == q[2])
  {
  }

  lemma FixedNotNested(p: Path, q: Path)
    requires Place(p, false) && Place(q, false)
    ensures !(p < q)
  {
    NamesDiffer();
    NestedAgrees(p, q);
  }

  lemma FixedApartFromArtifacts(p: Path, q: Path)
    requires Place(p, false) && Place(q, true)
    ensures !(p < q) && !(q < p)
  {
    NamesDiffer();
    NestedAgrees(p, q);
    NestedAgrees(q, p);
    assert q[0] == "data" && q[1] == "artifacts";
  }

  lemma SamePrefix(x: Path, a: Path, b: Path)
    ensures x + a < x + b <==> a < b
  {
    if x + a < x + b {
      assert (x + b)[..|x + a|] == x + a;
      assert b[..|a|] == (x + b)[|x|..|x + a|] == a;
    }
  }

  lemma PlaceOf(fm: Formats, c: Captured, manifest: bytes, p: Path)
    requires ProperPaths(c.artifacts) && p in SnapshotFiles(fm, c, manifest)
    ensures Place(p, p in Placed(c.artifacts))
  {
    DataFilesAre(c, manifest);
    if p in Placed(c.artifacts) {
      assert p == Artifacts() + p[2..] && Proper(p[2..]);
    }
  }

  lemma SnapshotTreeLike(fm: Formats, c: Captured, manifest: bytes)
    requires ProperPaths(c.artifacts) && Directories(c.artifacts)
    ensures TreeLike(SnapshotFiles(fm, c, manifest))
  {
    var files := SnapshotFiles(fm, c, manifest);
    forall p, q | p in files && q in files
      ensures !(p < q)
    {
      PlaceOf(fm, c, manifest, p);
      PlaceOf(fm, c, manifest, q);
      if p in Placed(c.artifacts) && q in Placed(c.artifacts) {
        assert p == Artifacts() + p[2..] && q == Artifacts() + q[2..];
        SamePrefix(Artifacts(), p[2..], q[2..]);
      } else if p !in Placed(c.artifacts) && q !in Placed(c.artifacts) {
        FixedNotNested(p, q);
      } else if p in Placed(c.artifacts) {
        FixedApartFromArtifacts(q, p);
      } else {
        FixedApartFromArtifacts(p, q);
      }
    }
    DirectoriesFree(fm, c, manifest);
  }

  lemma DirectoriesFree(fm: Formats, c: Captured, manifest: bytes)
    requires ProperPaths(c.artifacts)
    ensures var files := SnapshotFiles(fm, c, manifest);
            [] !in files && Artifacts() !in files && HasBelow(files, Artifacts()[..1])
  {
    var files := SnapshotFiles(fm, c, manifest);
    DataFilesAre(c, manifest);
    NamesDiffer();
    FixedPaths();
    if Artifacts() in files {
      PlaceOf(fm, c, manifest, Artifacts());
    }
    if [] in files {
      PlaceOf(fm, c, manifest, []);
    }
    assert Pilot() in Required() && Pilot() in files && Artifacts()[..1] == ["data"] && ["data"] < Pilot();
  }

  // ----- Both together -----

  /** Where a restore puts the pieces. */
  datatype Targets = Targets(database: Path, relay: Path, artifacts: Path, audit: Path, chain: Path)

  function PlanFor(fm: Formats, snapshot: Path, t: Targets): (plan: seq<Request>)
    ensures |plan| == 6 && PlanOf(snapshot, plan)
  {
    RestorePlan(snapshot, t.database, t.relay, t.artifacts, t.audit, t.chain, fm.sqliteOk, fm.auditOk, fm.stateOk)
  }

  /** Everything captured is at its target, byte for byte, and nothing else is among the artifacts. */
  ghost predicate Reproduced(g: Tree, t: Targets, c: Captured) {
    && g(t.database) == Some(File(c.database)) && g(t.relay) == Some(File(c.relay)) && g(t.audit) == Some(File(c.audit))
    && g(t.chain + ["deployment.json"]) == Some(File(c.deployment))
    && g(t.chain + ["state.json"]) == Some(File(c.state))
    && Holds(g, t.artifacts, c.artifacts)
  }

  /** The targets pass the checks, no file lies above one, and the container names are free. */
  ghost predicate Clear(g: Tree, snapshot: Path, plan: seq<Request>, names: seq<string>)
    requires |names| == |plan|
  {
    && AllSafe(snapshot, plan) && AllTyped(g, plan) && AllApart(plan)
    && (forall i, q | 0 <= i < |plan| && q < plan[i].destination :: !IsFile(g(q)))
    && (forall i | 0 <= i < |plan| :: g(ContainerOf(plan[i], names[i])) == None)
    && (forall i, j | 0 <= i < j < |plan| :: ContainerOf(plan[i], names[i]) != ContainerOf(plan[j], names[j]))
  }

  lemma SourceAccepted(g: Tree, snapshot: Path, files: Files, r: Request, p: Path)
    requires Holds(g, snapshot, files) && p != [] && p in files && r.source == snapshot + p && !r.kind.Directory?
    ensures SourceTyped(g, r) && (AcceptedAt(g, r.source, r) <==> r.accepts(files[p]))
  {
  }

  /** The plan, request by request. */
  ghost predicate Requests(plan: seq<Request>, fm: Formats, snapshot: Path, t: Targets) {
    && |plan| == 6
    && plan[0] == Request(snapshot + Pilot(), t.database, Sqlite, fm.sqliteOk)
    && plan[1] == Request(snapshot + Relay(), t.relay, Sqlite, fm.sqliteOk)
    && plan[2] == Request(snapshot + Audit(), t.audit, Plain, fm.auditOk)
    && plan[3] == Request(snapshot + Deployment(), t.chain + ["deployment.json"], Plain, fm.stateOk)
    && plan[4] == Request(snapshot + State(), t.chain + ["state.json"], Plain, fm.stateOk)
    && plan[5] == Request(snapshot + Artifacts(), t.artifacts, Directory, fm.sqliteOk)
  }

  lemma PlanIs(fm: Formats, snapshot: Path, t: Targets)
    ensures Requests(PlanFor(fm, snapshot, t), fm, snapshot, t)
  {
    PlanSources(snapshot, t.database, t.relay, t.artifacts, t.audit, t.chain, fm.sqliteOk, fm.auditOk, fm.stateOk);
  }

  lemma ArtifactsReady(g: Tree, f: Tree, snapshot: Path, files: Files)
    requires g == Planted(f, snapshot, files) && Artifacts() !in files
    ensures g(snapshot + Artifacts()) == Some(Dir)
  {
    var a := snapshot + Artifacts();
    assert snapshot <= a && a[|snapshot|..] == Artifacts();
    assert g(a) == NodeOf(files, Artifacts());
  }

  /** The sources of a created snapshot are there, and pass. */
  lemma SourcesReady(fm: Formats, g: Tree, files: Files, snapshot: Path, t: Targets, plan: seq<Request>)
    requires Requests(plan, fm, snapshot, t) && Holds(g, snapshot, files) && g(snapshot + Artifacts()) == Some(Dir)
    requires Required() <= files.Keys && ContentsOk(fm, files)
    ensures Accepted(g, plan) && forall i | 0 <= i < 6 :: SourceTyped(g, plan[i])
  {
    SourceAccepted(g, snapshot, files, plan[0], Pilot());
    SourceAccepted(g, snapshot, files, plan[1], Relay());
    SourceAccepted(g, snapshot, files, plan[2], Audit());
    SourceAccepted(g, snapshot, files, plan[3], Deployment());
    SourceAccepted(g, snapshot, files, plan[4], State());
    assert AcceptedAt(g, plan[5].source, plan[5]) && SourceTyped(g, plan[5]);
  }

  lemma AllReproduced(fm: Formats, c: Captured, manifest: bytes, f: Tree, g: Tree, snapshot: Path, t: Targets,
                      plan: seq<Request>)
    requires Requests(plan, fm, snapshot, t) && AllRestored(f, g, plan)
    requires Holds(f, snapshot, SnapshotFiles(fm, c, manifest))
    ensures Reproduced(g, t, c)
  {
    RestoreReproduces(fm, c, manifest, f, g, snapshot, plan, 0);
    RestoreReproduces(fm, c, manifest, f, g, snapshot, plan, 1);
    RestoreReproduces(fm, c, manifest, f, g, snapshot, plan, 2);
    RestoreReproduces(fm, c, manifest, f, g, snapshot, plan, 3);
    RestoreReproduces(fm, c, manifest, f, g, snapshot, plan, 4);
    RestoreReproduces(fm, c, manifest, f, g, snapshot, plan, 5);
  }

  /** The snapshot lies on the volume, ready to be restored. */
  ghost predicate OnVolume(fm: Formats, c: Captured, manifest: bytes, g: Tree, snapshot: Path, t: Targets,
                           plan: seq<Request>)
  {
    && WellFormed(g) && Holds(g, snapshot, SnapshotFiles(fm, c, manifest)) && Requests(plan, fm, snapshot, t)
    && Accepted(g, plan) && forall i | 0 <= i < 6 :: SourceTyped(g, plan[i])
  }

  /** The volume a created snapshot leaves. */
  lemma CreatedVolume(fm: Formats, c: Captured, manifest: bytes, f: Tree, snapshot: Path, t: Targets)
    requires Sealable(fm, c, manifest) && ProperPaths(c.artifacts) && Directories(c.artifacts) && WellFormed(f)
    ensures var g, plan := Planted(f, snapshot, SnapshotFiles(fm, c, manifest)), PlanFor(fm, snapshot, t);
            OnVolume(fm, c, manifest, g, snapshot, t, plan)
  {
    var files := SnapshotFiles(fm, c, manifest);
    var g, plan := Planted(f, snapshot, files), PlanFor(fm, snapshot, t);
    SnapshotTreeLike(fm, c, manifest);
    PlantedWellFormed(f, snapshot, files);
    PlantedHolds(f, snapshot, files);
    ArtifactsReady(g, f, snapshot, files);
    ContentsAre(fm, c, manifest);
    PlanIs(fm, snapshot, t);
    SourcesReady(fm, g, files, snapshot, t, plan);
  }

  lemma ClearIsReady(g: Tree, snapshot: Path, plan: seq<Request>, names: seq<string>)
    requires |names| == |plan| && Clear(g, snapshot, plan, names)
             && forall i | 0 <= i < |plan| :: SourceTyped(g, plan[i])
    ensures Ready(g, plan, names)
  {
  }

  method RestoreCreated(fm: Formats, ghost c: Captured, ghost manifest: bytes, v: Volume, snapshot: Path,
                        ghost t: Targets, plan: seq<Request>, names: seq<string>)
    returns (outcome: Outcome, cleaned: bool)
    requires OnVolume(fm, c, manifest, v.fs, snapshot, t, plan)
    requires PlanOf(snapshot, plan) && NamesAvoid(snapshot, plan, names)
    modifies v
    ensures outcome.Rejected? ==> v.fs == old(v.fs)
    ensures outcome.Restored? ==> Reproduced(v.fs, t, c)
    ensures old(v.Healthy() && Clear(v.fs, snapshot, plan, names)) ==> outcome.Restored? && cleaned
    ensures Framed(old(v.fs), v.fs, plan, names, cleaned) && (outcome.Restored? ==> AllRestored(old(v.fs), v.fs, plan))
  {
    ghost var g := v.fs;
    if Clear(g, snapshot, plan, names) {
      ClearIsReady(g, snapshot, plan, names);
    }
    outcome, cleaned := Restore(v, snapshot, plan, names);
    if outcome.Restored? {
      AllReproduced(fm, c, manifest, g, v.fs, snapshot, t, plan);
    }
  }

  /** Back up, then restore, on one volume: whatever fails, a restore that reports success has brought everything
      back, and on a volume that works, with clear targets, it succeeds whenever the inputs could be sealed. */
  method BackUpAndRestore(fm: Formats, c: Captured, manifest: bytes, v: Volume, snapshot: Path, t: Targets,
                          names: seq<string>)
    returns (created: bool, outcome: Outcome, cleaned: bool)
    requires fm.Lawful() && ProperPaths(c.artifacts) && Directories(c.artifacts)
    requires WellFormed(v.fs) && v.fs(snapshot) == None && forall q | q < snapshot :: !IsFile(v.fs(q))
    requires NamesAvoid(snapshot, PlanFor(fm, snapshot, t), names)
    modifies v
    ensures created <==> Sealable(fm, c, manifest)
    ensures !created ==> v.fs == old(v.fs)
    ensures created && outcome.Restored? ==> Reproduced(v.fs, t, c)
    ensures (created && outcome.Restored? ==>
               AllRestored(Planted(old(v.fs), snapshot, SnapshotFiles(fm, c, manifest)), v.fs,
                           PlanFor(fm, snapshot, t)))
    ensures (created && outcome.Rejected? ==> v.fs == Planted(old(v.fs), snapshot, SnapshotFiles(fm, c, manifest)))
    ensures (created && old(v.Healthy())
             && Clear(Planted(old(v.fs), snapshot, SnapshotFiles(fm, c, manifest)), snapshot,
                      PlanFor(fm, snapshot, t), names)) ==> outcome.Restored? && cleaned
  {
    var files := CreateSystemSnapshot(fm, Some(c.database), Some(c.relay), Some(c.audit), Some(c.deployment),
                                      Some(c.state), c.artifacts, manifest);
    created := files.Some?;
    if !created {
      return false, StagingFailed, true;
    }
    CreatedVolume(fm, c, manifest, v.fs, snapshot, t);
    v.fs := Planted(v.fs, snapshot, files.value);
    outcome, cleaned := RestoreCreated(fm, c, manifest, v, snapshot, t, PlanFor(fm, snapshot, t), names);
  }

  // ----- A restore onto its own snapshot -----

  /** An empty volume. */
  function EmptyTree(): Tree {
    (q: Path) => if q == [] then Some(Dir) else None
  }

  /** The databases, the log and the state go elsewhere; the artifacts go to the snapshot. */
  function OntoItself(s: Path): Targets {
    Targets(["a"], ["b"], s, ["c"], ["d"])
  }

  function ContainerNames(): seq<string> {
    ["0", "1", "2", "3", "4", "5"]
  }

  lemma LettersDiffer()
    ensures "a" != "b" && "a" != "c" && "a" != "d" && "a" != "s" && "b" != "c" && "b" != "d" && "b" != "s"
    ensures "c" != "d" && "c" != "s" && "d" != "s"
  {
    assert "a"[0] == 'a' && "b"[0] == 'b' && "c"[0] == 'c' && "d"[0] == 'd' && "s"[0] == 's';
  }

  /** What a target of that plan can be. */
  predicate OneOf(d: Path) {
    d == ["a"] || d == ["b"] || d == ["c"] || d == ["d", "deployment.json"] || d == ["d", "state.json"] || d == ["s"]
  }

  lemma OneOfApart(d: Path, e: Path)
    requires OneOf(d) && OneOf(e) && d != e
    ensures Apart(d, e)
  {
    LettersDiffer();
    NamesDiffer();
    NestedAgrees(d, e);
    NestedAgrees(e, d);
  }

  lemma OneOfSafe(s: Path, d: Path)
    requires s == ["s"] && OneOf(d)
    ensures SafeTarget(s, d)
  {
    LettersDiffer();
    NestedAgrees(d, s);
    NestedAgrees(s, d);
  }

  lemma DestinationsAre(fm: Formats, s: Path, plan: seq<Request>)
    requires s == ["s"] && Requests(plan, fm, s, OntoItself(s))
    ensures forall i | 0 <= i < 6 :: OneOf(plan[i].destination)
    ensures forall i, j | 0 <= i < j < 6 :: plan[i].destination != plan[j].destination
  {
    LettersDiffer();
    NamesDiffer();
    assert plan[0].destination[0] == "a" && plan[1].destination[0] == "b" && plan[2].destination[0] == "c";
    assert plan[3].destination[0] == "d" && plan[3].destination[1] == "deployment.json";
    assert plan[4].destination[0] == "d" && plan[4].destination[1] == "state.json" && plan[5].destination[0] == "s";
  }

  lemma OntoItselfSafe(fm: Formats, s: Path, plan: seq<Request>)
    requires s == ["s"] && Requests(plan, fm, s, OntoItself(s))
    ensures AllSafe(s, plan) && AllApart(plan)
  {
    DestinationsAre(fm, s, plan);
    forall i | 0 <= i < 6
      ensures SafeTarget(s, plan[i].destination)
    {
      OneOfSafe(s, plan[i].destination);
    }
    forall i, j | 0 <= i < j < 6
      ensures Apart(plan[i].destination, plan[j].destination)
    {
      OneOfApart(plan[i].destination, plan[j].destination);
    }
  }

  lemma PrefixAgrees(p: Path, q: Path)
    ensures p <= q ==> (|p| > 0 ==> p[0] == q[0]) && (|p| > 1 ==> p[1] == q[1]) && (|p| > 2 ==> p[2] == q[2])
  {
  }

  predicate DigitName(n: string) {
    |n| == 1 && '0' <= n[0] <= '9'
  }

  /** What a container of that plan can be. */
  predicate ContainerLike(c: Path) {
    (|c| == 1 && DigitName(c[0])) || (|c| == 2 && c[0] == "d" && DigitName(c[1]))
  }

  lemma ContainerElsewhere(c: Path, d: Path)
    requires ContainerLike(c) && OneOf(d)
    ensures !(c <= d)
  {
    assert |"a"| == 1 && "a"[0] == 'a' && "b"[0] == 'b' && "c"[0] == 'c' && "d"[0] == 'd' && "s"[0] == 's';
    assert |"deployment.json"| == 15 && |"state.json"| == 10;
    PrefixAgrees(c, d);
  }

  lemma ContainersAre(fm: Formats, s: Path, plan: seq<Request>, names: seq<string>)
    requires s == ["s"] && Requests(plan, fm, s, OntoItself(s)) && names == ContainerNames()
    ensures forall i | 0 <= i < 6 :: ContainerLike(ContainerOf(plan[i], names[i]))
    ensures forall i, j | 0 <= i < j < 6 :: ContainerOf(plan[i], names[i]) != ContainerOf(plan[j], names[j])
  {
    forall i | 0 <= i < 6
      ensures DigitName(names[i]) && names[i][0] as int == '0' as int + i
    {
    }
    assert Parent(plan[0].destination) == [] && Parent(plan[1].destination) == [] && Parent(plan[2].destination) == [];
    assert Parent(plan[3].destination) == ["d"] && Parent(plan[4].destination) == ["d"];
    assert Parent(plan[5].destination) == [];
    forall i, j | 0 <= i < j < 6
      ensures ContainerOf(plan[i], names[i]) != ContainerOf(plan[j], names[j])
    {
      var a, b := ContainerOf(plan[i], names[i]), ContainerOf(plan[j], names[j]);
      assert a[|a| - 1] == names[i] && b[|b| - 1] == names[j];
    }
  }

  lemma OntoItselfAvoids(fm: Formats, s: Path, plan: seq<Request>, names: seq<string>)
    requires s == ["s"] && Requests(plan, fm, s, OntoItself(s)) && names == ContainerNames()
    ensures NamesAvoid(s, plan, names)
  {
    ContainersAre(fm, s, plan, names);
    DestinationsAre(fm, s, plan);
    forall i, j | 0 <= i < 6 && 0 <= j < 6
      ensures !(ContainerOf(plan[i], names[i]) <= plan[j].destination)
    {
      ContainerElsewhere(ContainerOf(plan[i], names[i]), plan[j].destination);
    }
    forall i | 0 <= i < 6
      ensures !(ContainerOf(plan[i], names[i]) <= s)
    {
      ContainerElsewhere(ContainerOf(plan[i], names[i]), s);
    }
  }

  /** The volume with nothing but the snapshot. */
  lemma PlantedInEmpty(s: Path, files: Files, q: Path)
    requires s == ["s"] && TreeLike(files) && q != []
    ensures q[0] != "s" ==> Planted(EmptyTree(), s, files)(q) == None
    ensures q == s ==> Planted(EmptyTree(), s, files)(q) == Some(Dir)
  {
    assert s <= q ==> q[0] == s[0];
    assert q < s ==> q == [];
    if q == s {
      assert q[|s|..] == [];
    }
  }

  lemma RootOfPlanted(s: Path, files: Files)
    requires s == ["s"]
    ensures Planted(EmptyTree(), s, files)([]) == Some(Dir)
  {
  }

  lemma OneOfTyped(s: Path, files: Files, r: Request)
    requires s == ["s"] && TreeLike(files) && OneOf(r.destination) && (r.destination == s <==> r.kind.Directory?)
    ensures RightType(Planted(EmptyTree(), s, files), r)
    ensures forall q | q < r.destination :: !IsFile(Planted(EmptyTree(), s, files)(q))
  {
    LettersDiffer();
    PlantedInEmpty(s, files, r.destination);
    RootOfPlanted(s, files);
    forall q | q < r.destination
      ensures !IsFile(Planted(EmptyTree(), s, files)(q))
    {
      if q != [] {
        assert q[0] == r.destination[0];
        PlantedInEmpty(s, files, q);
      }
    }
  }

  lemma OntoItselfClear(fm: Formats, s: Path, plan: seq<Request>, names: seq<string>, files: Files)
    requires s == ["s"] && Requests(plan, fm, s, OntoItself(s)) && names == ContainerNames() && TreeLike(files)
    ensures Clear(Planted(EmptyTree(), s, files), s, plan, names)
  {
    OntoItselfSafe(fm, s, plan);
    ContainersAre(fm, s, plan, names);
    DestinationsAre(fm, s, plan);
    forall i | 0 <= i < 6
      ensures RightType(Planted(EmptyTree(), s, files), plan[i])
      ensures forall q | q < plan[i].destination :: !IsFile(Planted(EmptyTree(), s, files)(q))
      ensures Planted(EmptyTree(), s, files)(ContainerOf(plan[i], names[i])) == None
    {
      assert plan[5].destination == s;
      OneOfTyped(s, files, plan[i]);
      LettersDiffer();
      PlantedInEmpty(s, files, ContainerOf(plan[i], names[i]));
    }
  }

  lemma FixedElsewhere(k: Path, q: Path)
    requires Place(k, false) && q == ["data", "artifacts", "data"]
    ensures !(q <= k) && k != ["data"]
  {
    NamesDiffer();
    PrefixAgrees(q, k);
  }

  lemma NothingThere(fm: Formats, c: Captured, manifest: bytes, k: Path, q: Path)
    requires ProperPaths(c.artifacts) && c.artifacts == map[] && k in SnapshotFiles(fm, c, manifest)
    requires q == ["data", "artifacts", "data"]
    ensures !(q <= k) && k != ["data"]
  {
    PlaceOf(fm, c, manifest, k);
    assert k !in Placed(c.artifacts);
    FixedElsewhere(k, q);
  }

  lemma PlantedAt(f: Tree, s: Path, files: Files, p: Path)
    ensures Planted(f, s, files)(s + p) == NodeOf(files, p)
  {
    assert s <= s + p && (s + p)[|s|..] == p;
  }

  lemma NodesAt(files: Files, p: Path, q: Path)
    requires HasBelow(files, p) && p !in files && |q| == 3 && forall k | k in files :: !(q <= k)
    ensures NodeOf(files, p) == Some(Dir) && NodeOf(files, q) == None
  {
    assert |Artifacts()| == 2;
  }

  lemma NodesOfSnapshot(fm: Formats, c: Captured, manifest: bytes, files: Files, p: Path, q: Path)
    requires ProperPaths(c.artifacts) && c.artifacts == map[] && files == SnapshotFiles(fm, c, manifest)
    requires p == Artifacts()[..1] && p == ["data"] && q == ["data", "artifacts", "data"]
    ensures NodeOf(files, p) == Some(Dir) && NodeOf(files, q) == None
  {
    DirectoriesFree(fm, c, manifest);
    forall k | k in files
      ensures !(q <= k) && k != p
    {
      NothingThere(fm, c, manifest, k, q);
    }
    NodesAt(files, p, q);
  }

  lemma NoDataInArtifacts(fm: Formats, c: Captured, manifest: bytes, f: Tree, s: Path, p: Path, q: Path)
    requires ProperPaths(c.artifacts) && c.artifacts == map[]
    requires p == ["data"] && q == ["data", "artifacts", "data"]
    ensures var g := Planted(f, s, SnapshotFiles(fm, c, manifest)); g(s + p) == Some(Dir) && g(s + q) == None
  {
    assert p == Artifacts()[..1];
    NodesOfSnapshot(fm, c, manifest, SnapshotFiles(fm, c, manifest), p, q);
    PlantedAt(f, s, SnapshotFiles(fm, c, manifest), p);
    PlantedAt(f, s, SnapshotFiles(fm, c, manifest), q);
  }

  lemma OntoItselfGone(fm: Formats, c: Captured, manifest: bytes, g: Tree, s: Path, plan: seq<Request>)
    requires ProperPaths(c.artifacts) && c.artifacts == map[] && Requests(plan, fm, s, OntoItself(s))
    requires AllRestored(Planted(EmptyTree(), s, SnapshotFiles(fm, c, manifest)), g, plan)
    ensures g(s + ["data"]) == None && !Kept(Planted(EmptyTree(), s, SnapshotFiles(fm, c, manifest)), g, s)
  {
    NoDataInArtifacts(fm, c, manifest, EmptyTree(), s, ["data"], ["data", "artifacts", "data"]);
    RestoreOntoSnapshot(Planted(EmptyTree(), s, SnapshotFiles(fm, c, manifest)), g, s, plan, 5);
  }

  lemma OntoItselfReady(fm: Formats, c: Captured, manifest: bytes, s: Path, names: seq<string>)
    requires s == ["s"] && names == ContainerNames() && ProperPaths(c.artifacts) && Directories(c.artifacts)
    ensures Requests(PlanFor(fm, s, OntoItself(s)), fm, s, OntoItself(s))
    ensures NamesAvoid(s, PlanFor(fm, s, OntoItself(s)), names)
    ensures Clear(Planted(EmptyTree(), s, SnapshotFiles(fm, c, manifest)), s, PlanFor(fm, s, OntoItself(s)), names)
  {
    var plan := PlanFor(fm, s, OntoItself(s));
    PlanIs(fm, s, OntoItself(s));
    OntoItselfAvoids(fm, s, plan, names);
    SnapshotTreeLike(fm, c, manifest);
    OntoItselfClear(fm, s, plan, names, SnapshotFiles(fm, c, manifest));
  }

  /** It happens: every sealable snapshot without artifacts, restored from an otherwise empty volume with the
      artifacts directed at the snapshot itself, is restored with success, and is gone. */
  method RestoreOntoItself(fm: Formats, c: Captured, manifest: bytes, s: Path) returns (v: Volume, outcome: Outcome)
    requires fm.Lawful() && Sealable(fm, c, manifest) && c.artifacts == map[] && s == ["s"]
    ensures outcome.Restored? && v.fs(s + ["data"]) == None
    ensures Reproduced(v.fs, OntoItself(s), c)
    ensures !Kept(Planted(EmptyTree(), s, SnapshotFiles(fm, c, manifest)), v.fs, s)
  {
    v := new Volume(EmptyTree(), []);
    var names := ContainerNames();
    OntoItselfReady(fm, c, manifest, s, names);
    var created, cleaned;
    created, outcome, cleaned := BackUpAndRestore(fm, c, manifest, v, s, OntoItself(s), names);
    OntoItselfGone(fm, c, manifest, v.fs, s, PlanFor(fm, s, OntoItself(s)));
  }
}
