/** The first half of `restore_system_snapshot`: check the targets, then stage every source and
    back up every target in a container beside it, before anything live is touched. */
module SnapshotStaging {
  import opened Wrappers
  import opened Text
  import opened Disk

  datatype Kind = Sqlite | Plain | Directory

  /** One of the requested pairs; `accepts` is the content check made on the staged copy. */
  datatype Request = Request(source: Path, destination: Path, kind: Kind, accepts: bytes -> bool)

  datatype Item = Item(request: Request, container: Path, hadExisting: bool) {
    function Destination(): Path { request.destination }
    function Staged(): Path { container + ["staged"] }
    function Backup(): Path { container + ["backup"] }
  }

  datatype RestoreError = UnsafeTarget | TargetType | TargetConflict

  /** The six pairs of `restore_system_snapshot`, in its order. */
  function RestorePlan(snapshot: Path, database: Path, relay: Path, artifacts: Path, audit: Path, chain: Path,
                       sqliteOk: bytes -> bool, auditOk: bytes -> bool, stateOk: bytes -> bool): (plan: seq<Request>)
    ensures |plan| == 6 && PlanOf(snapshot, plan)
  {
    var data := snapshot + ["data"];
    [ Request(data + ["pilot.sqlite"], database, Sqlite, sqliteOk),
      Request(data + ["relay.sqlite"], relay, Sqlite, sqliteOk),
      Request(data + ["audit.jsonl"], audit, Plain, auditOk),
      Request(data + ["chain", "deployment.json"], chain + ["deployment.json"], Plain, stateOk),
      Request(data + ["chain", "state.json"], chain + ["state.json"], Plain, stateOk),
      Request(data + ["artifacts"], artifacts, Directory, sqliteOk) ]
  }

  /** Every source lies inside the snapshot. */
  predicate PlanOf(snapshot: Path, plan: seq<Request>) {
    forall i | 0 <= i < |plan| :: snapshot < plan[i].source
  }

  predicate SafeTarget(snapshot: Path, p: Path) {
    p != [] && !(snapshot < p) && !(p < snapshot)
  }

  predicate RightType(f: Tree, r: Request) {
    f(r.destination) == None || (f(r.destination) == Some(Dir) <==> r.kind.Directory?)
  }

  predicate Apart(p: Path, q: Path) {
    !(p <= q) && !(q <= p)
  }

  predicate AllSafe(snapshot: Path, plan: seq<Request>) {
    forall i | 0 <= i < |plan| :: SafeTarget(snapshot, plan[i].destination)
  }

  predicate AllTyped(f: Tree, plan: seq<Request>) {
    forall i | 0 <= i < |plan| :: RightType(f, plan[i])
  }

  predicate AllApart(plan: seq<Request>) {
    forall i, j | 0 <= i < j < |plan| :: Apart(plan[i].destination, plan[j].destination)
  }

  /** The checks of lines 307-323, made before anything is written. */
  method CheckTargets(f: Tree, snapshot: Path, plan: seq<Request>) returns (error: Option<RestoreError>)
    ensures error == None <==> AllSafe(snapshot, plan) && AllTyped(f, plan) && AllApart(plan)
    ensures error == Some(UnsafeTarget) <==> !AllSafe(snapshot, plan)
    ensures error == Some(TargetType) <==> AllSafe(snapshot, plan) && !AllTyped(f, plan)
  {
    for i := 0 to |plan|
      invariant forall k | 0 <= k < i :: SafeTarget(snapshot, plan[k].destination)
    {
      var d := plan[i].destination;
      if d == Parent(d) || snapshot < d || d < snapshot {
        return Some(UnsafeTarget);
      }
    }
    for i := 0 to |plan|
      invariant forall k | 0 <= k < i :: RightType(f, plan[k])
    {
      if f(plan[i].destination).Some? && (f(plan[i].destination) == Some(Dir)) != plan[i].kind.Directory? {
        return Some(TargetType);
      }
    }
    for i := 0 to |plan|
      invariant forall k, j | 0 <= k < i && k < j < |plan| :: Apart(plan[k].destination, plan[j].destination)
    {
      for j := i + 1 to |plan|
        invariant forall m | i < m < j :: Apart(plan[i].destination, plan[m].destination)
      {
        var d, other := plan[i].destination, plan[j].destination;
        if d == other || d < other || other < d {
          assert !Apart(plan[i].destination, plan[j].destination);
          return Some(TargetConflict);
        }
      }
    }
    return None;
  }

  function ContainerOf(r: Request, name: string): Path {
    Parent(r.destination) + [name]
  }

  /** The names `mkdtemp` picks lead neither to a target nor to the snapshot, nor to a directory above them. */
  ghost predicate NamesAvoid(snapshot: Path, plan: seq<Request>, names: seq<string>) {
    && |names| == |plan|
    && (forall i, j | 0 <= i < |plan| && 0 <= j < |plan| :: !(ContainerOf(plan[i], names[i]) <= plan[j].destination))
    && (forall i | 0 <= i < |plan| :: !(ContainerOf(plan[i], names[i]) <= snapshot))
  }

  /** What `CheckTargets` and the choice of names establish. */
  ghost predicate Sound(f: Tree, snapshot: Path, plan: seq<Request>, names: seq<string>) {
    && WellFormed(f) && PlanOf(snapshot, plan) && NamesAvoid(snapshot, plan, names)
    && AllSafe(snapshot, plan) && AllTyped(f, plan) && AllApart(plan)
  }

  // ----- Where the pieces lie -----

  /** Each item's target and container are unrelated to everything else. */
  ghost predicate Separate(items: seq<Item>) {
    && (forall i, j | 0 <= i < |items| && 0 <= j < |items| :: Unrelated(items[i].container, items[j].Destination()))
    && (forall i, j | 0 <= i < |items| && 0 <= j < |items| && i != j ::
          Unrelated(items[i].Destination(), items[j].Destination())
            && Unrelated(items[i].container, items[j].container))
  }

  ghost predicate InContainer(items: seq<Item>, q: Path) {
    exists i | 0 <= i < |items| :: items[i].container <= q
  }

  ghost predicate InTarget(plan: seq<Request>, q: Path) {
    exists i | 0 <= i < |plan| :: plan[i].destination <= q
  }

  ghost predicate AboveTarget(plan: seq<Request>, q: Path) {
    exists i | 0 <= i < |plan| :: q < plan[i].destination
  }

  /** Unchanged, or a directory created above a target. */
  ghost predicate KeptOrParent(f: Tree, g: Tree, plan: seq<Request>, q: Path) {
    f(q) == g(q) || (f(q) == None && g(q) == Some(Dir) && AboveTarget(plan, q))
  }

  ghost predicate OutsideContainers(f: Tree, g: Tree, plan: seq<Request>, items: seq<Item>) {
    forall q :: InContainer(items, q) || KeptOrParent(f, g, plan, q)
  }

  ghost predicate ItemsOf(items: seq<Item>, plan: seq<Request>, names: seq<string>)
    requires |names| == |plan|
  {
    && |items| <= |plan|
    && (forall i | 0 <= i < |items| ::
        items[i].request == plan[i] && items[i].container == ContainerOf(plan[i], names[i]))
  }

  /** The staged tree is the source, and the backup is the target as it was. */
  ghost predicate Prepared(f: Tree, g: Tree, it: Item) {
    && SameTree(g, it.Staged(), f, it.request.source)
    && BackedUp(f, g, it)
  }

  ghost predicate BackedUp(f: Tree, g: Tree, it: Item) {
    && (it.hadExisting <==> f(it.Destination()).Some?)
    && (it.hadExisting ==> SameTree(g, it.Backup(), f, it.Destination()))
  }

  /** What lies above a path next to `p` lies above `p`. */
  lemma AboveSibling(p: Path, name: string, q: Path)
    requires p != []
    ensures q <= Parent(p) + [name] ==> q == Parent(p) + [name] || q < p
  {
  }

  lemma TargetsNotNested(plan: seq<Request>, i: nat, j: nat)
    requires AllApart(plan) && i < |plan| && j < |plan|
    ensures !(plan[i].destination < plan[j].destination)
    ensures i != j ==> Unrelated(plan[i].destination, plan[j].destination)
  {
    assert i < j ==> Apart(plan[i].destination, plan[j].destination);
    assert j < i ==> Apart(plan[j].destination, plan[i].destination);
  }

  /** A container is unrelated to every target. */
  lemma ContainerApart(f: Tree, snapshot: Path, plan: seq<Request>, names: seq<string>, i: nat, j: nat)
    requires Sound(f, snapshot, plan, names) && i < |plan| && j < |plan|
    ensures Unrelated(ContainerOf(plan[i], names[i]), plan[j].destination)
  {
    assert SafeTarget(snapshot, plan[i].destination);
    TargetsNotNested(plan, j, i);
    AboveSibling(plan[i].destination, names[i], plan[j].destination);
  }

  /** Two containers are unrelated as soon as they differ. */
  lemma ContainersApart(f: Tree, snapshot: Path, plan: seq<Request>, names: seq<string>, i: nat, j: nat)
    requires Sound(f, snapshot, plan, names) && i < |plan| && j < |plan|
    requires ContainerOf(plan[i], names[i]) != ContainerOf(plan[j], names[j])
    ensures Unrelated(ContainerOf(plan[i], names[i]), ContainerOf(plan[j], names[j]))
  {
    var c, e := ContainerOf(plan[i], names[i]), ContainerOf(plan[j], names[j]);
    assert SafeTarget(snapshot, plan[i].destination) && SafeTarget(snapshot, plan[j].destination);
    AboveSibling(plan[i].destination, names[i], e);
    AboveSibling(plan[j].destination, names[j], c);
  }

  lemma NotAboveTarget(plan: seq<Request>, snapshot: Path, p: Path, q: Path)
    requires AllSafe(snapshot, plan) && AllApart(plan)
    requires (InTarget(plan, p) || snapshot <= p) && p <= q
    ensures !AboveTarget(plan, q)
  {
    forall j | 0 <= j < |plan|
      ensures !(q < plan[j].destination)
    {
      assert SafeTarget(snapshot, plan[j].destination);
      if i :| 0 <= i < |plan| && plan[i].destination <= p {
        TargetsNotNested(plan, i, j);
      }
    }
  }

  lemma NotInContainer(items: seq<Item>, p: Path, q: Path)
    requires forall i | 0 <= i < |items| :: Unrelated(items[i].container, p)
    requires p <= q
    ensures !InContainer(items, q)
  {
    forall i | 0 <= i < |items|
      ensures !(items[i].container <= q)
    {
      if items[i].container <= q {
        ComparablePrefixes(items[i].container, p, q);
        assert false;
      }
    }
  }

  /** While only containers and directories above targets change, targets and the snapshot stay as they were. */
  lemma StagingKeeps(f: Tree, g: Tree, snapshot: Path, plan: seq<Request>, items: seq<Item>, p: Path)
    requires AllSafe(snapshot, plan) && AllApart(plan)
    requires OutsideContainers(f, g, plan, items)
    requires InTarget(plan, p) || snapshot <= p
    requires forall i | 0 <= i < |items| :: Unrelated(items[i].container, p)
    ensures Kept(f, g, p)
  {
    forall q | p <= q
      ensures f(q) == g(q)
    {
      NotInContainer(items, p, q);
      NotAboveTarget(plan, snapshot, p, q);
    }
  }

  // ----- Staging -----

  ghost predicate Leaf(f: Tree, p: Path) {
    IsFile(f(p)) ==> NothingBelow(f, p)
  }

  predicate SourceTyped(f: Tree, r: Request) {
    if r.kind.Directory? then f(r.source) == Some(Dir) else IsFile(f(r.source))
  }

  ghost predicate NewParent(f: Tree, g: Tree, d: Path, q: Path) {
    f(q) == g(q) || (f(q) == None && g(q) == Some(Dir) && q < d)
  }

  /** Lines 347-350: the copy of the source. */
  method FillStaged(v: Volume, it: Item) returns (ok: bool)
    requires Unrelated(it.container, it.request.source)
    requires NothingBelow(v.fs, it.container) && v.fs(it.container) == Some(Dir) && Leaf(v.fs, it.request.source)
    modifies v
    ensures OnlyAt(old(v.fs), v.fs, it.Staged())
    ensures ok ==> SourceTyped(old(v.fs), it.request) && SameTree(v.fs, it.Staged(), old(v.fs), it.request.source)
    ensures old(v.Healthy()) ==> v.Healthy()
    ensures old(v.Healthy()) && SourceTyped(old(v.fs), it.request) ==> ok
  {
    BelowContainer(it);
    ghost var g := v.fs;
    if it.request.kind.Directory? {
      ok := v.CopyTree(it.request.source, it.Staged());
      assert it.request.source + it.Staged()[|it.Staged()|..] == it.request.source;
    } else {
      ok := v.CopyFile(it.request.source, it.Staged());
      if ok {
        SameLeaf(v.fs, it.Staged(), g, it.request.source);
      }
    }
  }

  /** Lines 351-355: the copy of the target as it is. */
  method FillBackup(v: Volume, it: Item) returns (ok: bool)
    requires Unrelated(it.container, it.Destination())
    requires Gone(v.fs, it.Backup()) && v.fs(it.container) == Some(Dir) && Leaf(v.fs, it.Destination())
    requires it.hadExisting <==> v.fs(it.Destination()).Some?
    modifies v
    ensures OnlyAt(old(v.fs), v.fs, it.Backup())
    ensures ok ==> BackedUp(old(v.fs), v.fs, it)
    ensures old(v.Healthy()) ==> v.Healthy() && ok
  {
    BelowContainer(it);
    ok := true;
    ghost var g := v.fs;
    if it.hadExisting {
      if v.fs(it.Destination()) == Some(Dir) {
        ok := v.CopyTree(it.Destination(), it.Backup());
      } else {
        ok := v.CopyFile(it.Destination(), it.Backup());
        if ok {
          SameLeaf(v.fs, it.Backup(), g, it.Destination());
        }
      }
    }
  }

  method FillItem(v: Volume, it: Item) returns (ok: bool)
    requires Unrelated(it.container, it.request.source) && Unrelated(it.container, it.Destination())
    requires NothingBelow(v.fs, it.container) && v.fs(it.container) == Some(Dir)
    requires Leaf(v.fs, it.request.source) && Leaf(v.fs, it.Destination())
    requires it.hadExisting <==> v.fs(it.Destination()).Some?
    modifies v
    ensures OnlyAt(old(v.fs), v.fs, it.container) && v.fs(it.container) == Some(Dir)
    ensures ok ==> SourceTyped(old(v.fs), it.request) && Prepared(old(v.fs), v.fs, it)
    ensures old(v.Healthy()) ==> v.Healthy()
    ensures old(v.Healthy()) && SourceTyped(old(v.fs), it.request) ==> ok
  {
    BelowContainer(it);
    ghost var g := v.fs;
    ok := FillStaged(v, it);
    ghost var h := v.fs;
    StagedOnly(it, g, h);
    if ok {
      ok := FillBackup(v, it);
      BackupOnly(it, h, v.fs);
      if ok {
        StagedSurvives(g, h, v.fs, it);
        BackupOfKept(g, h, v.fs, it);
      }
    }
  }

  /** One round of the staging loop (lines 329-355). There is an item from the moment there is a container. */
  method StageItem(v: Volume, r: Request, container: Path) returns (ok: bool, item: Option<Item>)
    requires r.destination != [] && container != [] && Parent(container) == Parent(r.destination)
    requires Unrelated(container, r.destination) && Unrelated(container, r.source)
    requires !(r.source < r.destination)
    requires Rooted(v.fs, container) && Leaf(v.fs, r.source) && Leaf(v.fs, r.destination)
    modifies v
    ensures item.None? ==> !ok && forall q :: NewParent(old(v.fs), v.fs, r.destination, q)
    ensures item.Some? ==> (item.value.request == r && item.value.container == container
                            && old(v.fs)(container) == None && v.fs(container) == Some(Dir)
                            && v.fs(Parent(r.destination)) == Some(Dir))
    ensures item.Some? ==> forall q | !(container <= q) :: NewParent(old(v.fs), v.fs, r.destination, q)
    ensures ok ==> item.Some? && SourceTyped(old(v.fs), r) && Prepared(old(v.fs), v.fs, item.value)
    ensures old(v.Healthy()) ==> v.Healthy()
    ensures (old(v.Healthy()) && SourceTyped(old(v.fs), r) && old(v.fs)(container) == None
             && (forall q | q < r.destination :: !IsFile(old(v.fs)(q)))) ==> ok
  {
    ghost var f := v.fs;
    item := None;
    ok := v.MakeParents(r.destination);
    if !ok {
      return;
    }
    NotAboveItself(f, v.fs, r, container);
    ok := v.MakeTemp(container);
    if !ok {
      return;
    }
    var it := Item(r, container, v.fs(r.destination).Some?);
    item := Some(it);
    ghost var g := v.fs;
    assert Kept(f, g, r.source) && Kept(f, g, r.destination);
    ok := FillItem(v, it);
    assert !(container <= Parent(r.destination));
    if ok {
      SameTreeKept(v.fs, it.Staged(), g, f, r.source);
      if it.hadExisting {
        SameTreeKept(v.fs, it.Backup(), g, f, r.destination);
      }
    }
  }

  /** Making the directories above a target touches neither source, target nor container. */
  lemma NotAboveItself(f: Tree, g: Tree, r: Request, container: Path)
    requires forall q :: NewParent(f, g, r.destination, q)
    requires Unrelated(container, r.destination) && !(r.source < r.destination)
    ensures Kept(f, g, r.source) && Kept(f, g, r.destination) && Kept(f, g, container)
  {
    forall q | r.source <= q || r.destination <= q || container <= q
      ensures f(q) == g(q)
    {
      assert NewParent(f, g, r.destination, q);
    }
  }

  lemma BackupOfKept(f: Tree, g: Tree, h: Tree, it: Item)
    requires OnlyAt(f, g, it.container) && Unrelated(it.container, it.Destination())
    requires BackedUp(g, h, it)
    ensures BackedUp(f, h, it)
  {
    UnrelatedKept(f, g, it.container, it.Destination());
    if it.hadExisting {
      SameTreeKept(h, it.Backup(), g, f, it.Destination());
    }
  }

  lemma BelowContainer(it: Item)
    ensures it.container < it.Staged() && it.container < it.Backup()
    ensures Unrelated(it.Staged(), it.Backup())
    ensures Parent(it.Staged()) == it.container && Parent(it.Backup()) == it.container
  {
    var n := |it.container|;
    assert it.Staged()[n] == "staged" && it.Backup()[n] == "backup";
  }

  /** Filling `staged` leaves the backup's place and everything outside the container alone. */
  lemma StagedOnly(it: Item, g: Tree, h: Tree)
    requires OnlyAt(g, h, it.Staged())
    ensures OnlyAt(g, h, it.container) && h(it.container) == g(it.container)
    ensures Kept(g, h, it.Backup())
    ensures Unrelated(it.container, it.Destination()) ==> Kept(g, h, it.Destination())
  {
    BelowContainer(it);
    UnrelatedKept(g, h, it.Staged(), it.Backup());
    if Unrelated(it.container, it.Destination()) {
      UnrelatedKept(g, h, it.container, it.Destination());
    }
  }

  lemma BackupOnly(it: Item, g: Tree, h: Tree)
    requires OnlyAt(g, h, it.Backup())
    ensures OnlyAt(g, h, it.container) && h(it.container) == g(it.container)
    ensures Kept(g, h, it.Staged())
  {
    BelowContainer(it);
    UnrelatedKept(g, h, it.Backup(), it.Staged());
  }

  lemma StagedSurvives(f: Tree, g: Tree, h: Tree, it: Item)
    requires SameTree(g, it.Staged(), f, it.request.source) && Kept(g, h, it.Staged())
    ensures SameTree(h, it.Staged(), f, it.request.source)
  {
  }

  /** A container lies outside the snapshot. */
  lemma ContainerOutsideSnapshot(f: Tree, snapshot: Path, plan: seq<Request>, names: seq<string>, i: nat)
    requires Sound(f, snapshot, plan, names) && i < |plan|
    ensures Unrelated(ContainerOf(plan[i], names[i]), snapshot)
  {
    assert SafeTarget(snapshot, plan[i].destination);
    AboveSibling(plan[i].destination, names[i], snapshot);
  }

  /** What holds after each round of staging. */
  ghost predicate StageInv(f: Tree, g: Tree, plan: seq<Request>, names: seq<string>, items: seq<Item>)
    requires |names| == |plan|
  {
    && ItemsOf(items, plan, names)
    && OutsideContainers(f, g, plan, items)
    && ContainersMade(f, g, items)
  }

  ghost predicate ContainersMade(f: Tree, g: Tree, items: seq<Item>) {
    && (forall i | 0 <= i < |items| :: f(items[i].container) == None && g(items[i].container) == Some(Dir))
    && (forall i, j | 0 <= i < j < |items| :: items[i].container != items[j].container)
  }

  ghost predicate Complete(f: Tree, g: Tree, it: Item) {
    && SourceTyped(f, it.request) && Prepared(f, g, it)
    && g(Parent(it.Destination())) == Some(Dir)
  }

  ghost predicate AllComplete(f: Tree, g: Tree, items: seq<Item>) {
    forall i | 0 <= i < |items| :: Complete(f, g, items[i])
  }

  /** Nothing stands in the way: sources as expected, no file above a target, container names free. */
  ghost predicate Ready(f: Tree, plan: seq<Request>, names: seq<string>)
    requires |names| == |plan|
  {
    && (forall i | 0 <= i < |plan| :: SourceTyped(f, plan[i]))
    && (forall i | 0 <= i < |plan| :: forall q | q < plan[i].destination :: !IsFile(f(q)))
    && (forall i | 0 <= i < |plan| :: f(ContainerOf(plan[i], names[i])) == None)
    && (forall i, j | 0 <= i < j < |plan| :: ContainerOf(plan[i], names[i]) != ContainerOf(plan[j], names[j]))
  }

  /** Before round `k` the sources and targets are untouched, and a free container name has nothing below it. */
  lemma BeforeRound(f: Tree, g: Tree, snapshot: Path, plan: seq<Request>, names: seq<string>, items: seq<Item>, k: nat)
    requires Sound(f, snapshot, plan, names) && StageInv(f, g, plan, names, items) && k < |plan|
    ensures Kept(f, g, plan[k].source) && Kept(f, g, plan[k].destination)
    ensures Leaf(g, plan[k].source) && Leaf(g, plan[k].destination)
    ensures Unrelated(ContainerOf(plan[k], names[k]), plan[k].source)
    ensures !(plan[k].source < plan[k].destination)
  {
    var d, s := plan[k].destination, plan[k].source;
    assert SafeTarget(snapshot, d) && snapshot < s;
    forall i | 0 <= i < |plan|
      ensures Unrelated(ContainerOf(plan[i], names[i]), d) && Unrelated(ContainerOf(plan[i], names[i]), s)
    {
      ContainerApart(f, snapshot, plan, names, i, k);
      ContainerOutsideSnapshot(f, snapshot, plan, names, i);
      UnrelatedBelow(snapshot, ContainerOf(plan[i], names[i]), s);
    }
    StagingKeeps(f, g, snapshot, plan, items, d);
    StagingKeeps(f, g, snapshot, plan, items, s);
  }

  lemma FreeContainer(f: Tree, g: Tree, snapshot: Path, plan: seq<Request>, names: seq<string>, items: seq<Item>,
                      k: nat)
    requires Sound(f, snapshot, plan, names) && StageInv(f, g, plan, names, items) && k < |plan|
    requires forall i | 0 <= i < |items| :: items[i].container != ContainerOf(plan[k], names[k])
    ensures Kept(f, g, ContainerOf(plan[k], names[k])) && Rooted(g, ContainerOf(plan[k], names[k]))
  {
    var c := ContainerOf(plan[k], names[k]);
    forall i | 0 <= i < |items|
      ensures Unrelated(items[i].container, c)
    {
      ContainersApart(f, snapshot, plan, names, i, k);
    }
    forall q | c <= q
      ensures f(q) == g(q)
    {
      NotInContainer(items, c, q);
      assert KeptOrParent(f, g, plan, q);
    }
    if f(c) == None {
      LeafOrMissing(f, c);
      forall q | c <= q
        ensures g(q) == None
      {
        assert q == c || c < q;
      }
    }
  }

  lemma TakenContainer(f: Tree, g: Tree, snapshot: Path, plan: seq<Request>, names: seq<string>, items: seq<Item>,
                       k: nat)
    requires Sound(f, snapshot, plan, names) && StageInv(f, g, plan, names, items) && k < |plan|
    ensures Rooted(g, ContainerOf(plan[k], names[k]))
  {
    if forall i | 0 <= i < |items| :: items[i].container != ContainerOf(plan[k], names[k]) {
      FreeContainer(f, g, snapshot, plan, names, items, k);
    }
  }

  /** No file has appeared above a target. */
  lemma NoFileAbove(f: Tree, g: Tree, snapshot: Path, plan: seq<Request>, names: seq<string>, items: seq<Item>, k: nat)
    requires Sound(f, snapshot, plan, names) && StageInv(f, g, plan, names, items) && k < |plan|
    requires forall q | q < plan[k].destination :: !IsFile(f(q))
    ensures forall q | q < plan[k].destination :: !IsFile(g(q))
  {
    forall q | q < plan[k].destination
      ensures !IsFile(g(q))
    {
      forall i | 0 <= i < |items|
        ensures !(items[i].container <= q)
      {
        ContainerApart(f, snapshot, plan, names, i, k);
      }
      assert KeptOrParent(f, g, plan, q);
    }
  }

  lemma RoundOutside(f: Tree, g: Tree, h: Tree, plan: seq<Request>, items: seq<Item>, it: Item)
    requires OutsideContainers(f, g, plan, items)
    requires |items| < |plan| && it.request == plan[|items|]
    requires forall q | !(it.container <= q) :: NewParent(g, h, it.Destination(), q)
    ensures OutsideContainers(f, h, plan, items + [it])
  {
    var k := |items|;
    var more := items + [it];
    assert more[k] == it;
    forall q
      ensures InContainer(more, q) || KeptOrParent(f, h, plan, q)
    {
      if it.container <= q {
        assert more[k].container <= q;
      } else if InContainer(items, q) {
        var i :| 0 <= i < |items| && items[i].container <= q;
        assert more[i].container <= q;
      } else {
        assert KeptOrParent(f, g, plan, q) && NewParent(g, h, it.Destination(), q);
        assert it.Destination() == plan[k].destination;
      }
    }
  }

  /** A round leaves an earlier item as it is. */
  lemma RoundKeepsItem(f: Tree, g: Tree, h: Tree, done: Item, it: Item)
    requires forall q | !(it.container <= q) :: NewParent(g, h, it.Destination(), q)
    requires Unrelated(done.container, it.container) && Unrelated(done.container, it.Destination())
    requires Unrelated(it.container, done.Destination())
    requires g(done.container) == Some(Dir)
    ensures h(done.container) == Some(Dir)
    ensures Complete(f, g, done) ==> Complete(f, h, done)
  {
    RoundKeepsContainer(g, h, done.container, it);
    if Complete(f, g, done) {
      PreparedKept(f, g, h, done);
      var p := Parent(done.Destination());
      assert p <= done.Destination();
      assert NewParent(g, h, it.Destination(), p);
    }
  }

  /** A round keeps the invariant and what earlier rounds prepared. */
  lemma AfterRound(f: Tree, g: Tree, h: Tree, snapshot: Path, plan: seq<Request>, names: seq<string>,
                   items: seq<Item>, it: Item)
    requires Sound(f, snapshot, plan, names) && StageInv(f, g, plan, names, items) && |items| < |plan|
    requires it.request == plan[|items|] && it.container == ContainerOf(plan[|items|], names[|items|])
    requires g(it.container) == None && h(it.container) == Some(Dir)
    requires forall q | !(it.container <= q) :: NewParent(g, h, it.Destination(), q)
    ensures StageInv(f, h, plan, names, items + [it])
    ensures AllComplete(f, g, items) ==> AllComplete(f, h, items)
  {
    RoundOutside(f, g, h, plan, items, it);
    RoundContainers(f, g, h, snapshot, plan, names, items, it);
    if AllComplete(f, g, items) {
      RoundComplete(f, g, h, snapshot, plan, names, items, it);
    }
  }

  lemma RoundContainers(f: Tree, g: Tree, h: Tree, snapshot: Path, plan: seq<Request>, names: seq<string>,
                        items: seq<Item>, it: Item)
    requires Sound(f, snapshot, plan, names) && StageInv(f, g, plan, names, items) && |items| < |plan|
    requires it.request == plan[|items|] && it.container == ContainerOf(plan[|items|], names[|items|])
    requires g(it.container) == None && h(it.container) == Some(Dir)
    requires forall q | !(it.container <= q) :: NewParent(g, h, it.Destination(), q)
    ensures ContainersMade(f, h, items + [it]) && ItemsOf(items + [it], plan, names)
  {
    forall i | 0 <= i < |items|
      ensures h(items[i].container) == Some(Dir)
    {
      RoundKeepsEarlier(f, g, h, snapshot, plan, names, items, it, i);
    }
    FreshContainer(f, g, snapshot, plan, names, items, it.container);
    OneMoreContainer(f, h, items, it);
    OneMoreItem(items, it, plan, names);
  }

  lemma OneMoreContainer(f: Tree, h: Tree, items: seq<Item>, it: Item)
    requires ContainersMade(f, h, items) && f(it.container) == None && h(it.container) == Some(Dir)
    requires forall i | 0 <= i < |items| :: items[i].container != it.container
    ensures ContainersMade(f, h, items + [it])
  {
  }

  lemma OneMoreItem(items: seq<Item>, it: Item, plan: seq<Request>, names: seq<string>)
    requires |names| == |plan| && |items| < |plan| && ItemsOf(items, plan, names)
    requires it.request == plan[|items|] && it.container == ContainerOf(plan[|items|], names[|items|])
    ensures ItemsOf(items + [it], plan, names)
  {
  }

  lemma RoundComplete(f: Tree, g: Tree, h: Tree, snapshot: Path, plan: seq<Request>, names: seq<string>,
                      items: seq<Item>, it: Item)
    requires Sound(f, snapshot, plan, names) && StageInv(f, g, plan, names, items) && |items| < |plan|
    requires it.request == plan[|items|] && it.container == ContainerOf(plan[|items|], names[|items|])
    requires g(it.container) == None && AllComplete(f, g, items)
    requires forall q | !(it.container <= q) :: NewParent(g, h, it.Destination(), q)
    ensures AllComplete(f, h, items)
  {
    forall i | 0 <= i < |items|
      ensures Complete(f, h, items[i])
    {
      RoundKeepsEarlier(f, g, h, snapshot, plan, names, items, it, i);
    }
  }

  lemma FreshContainer(f: Tree, g: Tree, snapshot: Path, plan: seq<Request>, names: seq<string>,
                       items: seq<Item>, c: Path)
    requires Sound(f, snapshot, plan, names) && StageInv(f, g, plan, names, items) && |items| < |plan|
    requires c == ContainerOf(plan[|items|], names[|items|]) && g(c) == None
    ensures f(c) == None && forall i | 0 <= i < |items| :: items[i].container != c
  {
    FreeContainer(f, g, snapshot, plan, names, items, |items|);
  }

  lemma RoundKeepsEarlier(f: Tree, g: Tree, h: Tree, snapshot: Path, plan: seq<Request>, names: seq<string>,
                          items: seq<Item>, it: Item, i: nat)
    requires Sound(f, snapshot, plan, names) && StageInv(f, g, plan, names, items) && i < |items| < |plan|
    requires it.request == plan[|items|] && it.container == ContainerOf(plan[|items|], names[|items|])
    requires g(it.container) == None
    requires forall q | !(it.container <= q) :: NewParent(g, h, it.Destination(), q)
    ensures h(items[i].container) == Some(Dir)
    ensures Complete(f, g, items[i]) ==> Complete(f, h, items[i])
  {
    ContainersApart(f, snapshot, plan, names, i, |items|);
    ContainerApart(f, snapshot, plan, names, i, |items|);
    ContainerApart(f, snapshot, plan, names, |items|, i);
    RoundKeepsItem(f, g, h, items[i], it);
  }

  lemma RoundKeepsContainer(g: Tree, h: Tree, c: Path, it: Item)
    requires forall q | !(it.container <= q) :: NewParent(g, h, it.Destination(), q)
    requires Unrelated(c, it.container) && Unrelated(c, it.Destination())
    ensures Kept(g, h, c)
  {
    forall q | c <= q
      ensures g(q) == h(q)
    {
      if it.container <= q {
        ComparablePrefixes(c, it.container, q);
        assert false;
      }
      assert NewParent(g, h, it.Destination(), q);
    }
  }

  lemma PreparedKept(f: Tree, g: Tree, h: Tree, it: Item)
    requires Prepared(f, g, it) && Kept(g, h, it.container)
    ensures Prepared(f, h, it)
  {
    BelowContainer(it);
    StagedSurvives(f, g, h, it);
  }

  /** A round that fails before its container exists keeps the invariant too. */
  lemma AfterFailedRound(f: Tree, g: Tree, h: Tree, snapshot: Path, plan: seq<Request>, names: seq<string>,
                         items: seq<Item>, k: nat)
    requires Sound(f, snapshot, plan, names) && StageInv(f, g, plan, names, items) && k < |plan|
    requires forall q :: NewParent(g, h, plan[k].destination, q)
    ensures StageInv(f, h, plan, names, items)
  {
    forall q
      ensures InContainer(items, q) || KeptOrParent(f, h, plan, q)
    {
      assert NewParent(g, h, plan[k].destination, q);
      assert InContainer(items, q) || KeptOrParent(f, g, plan, q);
    }
    forall i | 0 <= i < |items|
      ensures h(items[i].container) == Some(Dir)
    {
      assert NewParent(g, h, plan[k].destination, items[i].container);
    }
  }

  lemma ItemsSeparate(f: Tree, g: Tree, snapshot: Path, plan: seq<Request>, names: seq<string>, items: seq<Item>)
    requires Sound(f, snapshot, plan, names) && StageInv(f, g, plan, names, items)
    ensures Separate(items)
  {
    forall i, j | 0 <= i < |items| && 0 <= j < |items|
      ensures Unrelated(items[i].container, items[j].Destination())
      ensures i != j ==> (Unrelated(items[i].Destination(), items[j].Destination())
                          && Unrelated(items[i].container, items[j].container))
    {
      ContainerApart(f, snapshot, plan, names, i, j);
      TargetsNotNested(plan, i, j);
      if i != j {
        assert items[i].container != items[j].container;
        ContainersApart(f, snapshot, plan, names, i, j);
      }
    }
  }

  /** The staging loop (lines 325-355). */
  method Stage(v: Volume, snapshot: Path, plan: seq<Request>, names: seq<string>) returns (ok: bool, items: seq<Item>)
    requires Sound(v.fs, snapshot, plan, names)
    modifies v
    ensures StageInv(old(v.fs), v.fs, plan, names, items)
    ensures ok ==> |items| == |plan| && AllComplete(old(v.fs), v.fs, items)
    ensures old(v.Healthy()) ==> v.Healthy()
    ensures old(v.Healthy()) && Ready(old(v.fs), plan, names) ==> ok
  {
    ghost var f := v.fs;
    items := [];
    ok := true;
    while |items| < |plan|
      invariant ok && StageInv(f, v.fs, plan, names, items) && AllComplete(f, v.fs, items)
      invariant old(v.Healthy()) ==> v.Healthy()
      decreases |plan| - |items|
    {
      var k := |items|;
      ghost var g := v.fs;
      var r := plan[k];
      assert SafeTarget(snapshot, r.destination);
      ContainerApart(f, snapshot, plan, names, k, k);
      BeforeRound(f, g, snapshot, plan, names, items, k);
      TakenContainer(f, g, snapshot, plan, names, items, k);
      RoundReady(f, g, snapshot, plan, names, items, k);
      var item;
      ok, item := StageItem(v, r, ContainerOf(r, names[k]));
      if item.None? {
        AfterFailedRound(f, g, v.fs, snapshot, plan, names, items, k);
        return;
      }
      AfterRound(f, g, v.fs, snapshot, plan, names, items, item.value);
      if ok {
        NewComplete(f, g, v.fs, item.value);
      }
      items := items + [item.value];
      if !ok {
        return;
      }
    }
  }

  lemma NewComplete(f: Tree, g: Tree, h: Tree, it: Item)
    requires Kept(f, g, it.request.source) && Kept(f, g, it.Destination())
    requires SourceTyped(g, it.request) && Prepared(g, h, it) && h(Parent(it.Destination())) == Some(Dir)
    ensures Complete(f, h, it)
  {
    SameTreeKept(h, it.Staged(), g, f, it.request.source);
    if it.hadExisting {
      SameTreeKept(h, it.Backup(), g, f, it.Destination());
    }
  }

  lemma RoundReady(f: Tree, g: Tree, snapshot: Path, plan: seq<Request>, names: seq<string>, items: seq<Item>, k: nat)
    requires Sound(f, snapshot, plan, names) && StageInv(f, g, plan, names, items) && k == |items| < |plan|
    requires Kept(f, g, plan[k].source)
    ensures Ready(f, plan, names) ==> (SourceTyped(g, plan[k]) && g(ContainerOf(plan[k], names[k])) == None
                                       && forall q | q < plan[k].destination :: !IsFile(g(q)))
  {
    if Ready(f, plan, names) {
      NoFileAbove(f, g, snapshot, plan, names, items, k);
      FreeContainer(f, g, snapshot, plan, names, items, k);
    }
  }
}
