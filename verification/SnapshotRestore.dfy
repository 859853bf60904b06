/** The second half of `restore_system_snapshot`: commit the targets one by one, roll back when one
    of them fails, and remove the staging containers. */
module SnapshotRestore {
  import opened Wrappers
  import opened Disk
  import opened SnapshotStaging

  datatype Outcome = Rejected(error: RestoreError) | StagingFailed | RestoreFailed | RollbackFailed | Restored

  // ----- Applying one item -----

  /** What applying, failing and undoing keep true of a target. */
  ghost predicate TargetShape(f: Tree, it: Item) {
    && Rooted(f, it.Destination())
    && (!it.request.kind.Directory? ==> f(it.Destination()) != Some(Dir) && NothingBelow(f, it.Destination()))
  }

  ghost predicate StagedShape(f: Tree, it: Item) {
    if it.request.kind.Directory? then f(it.Staged()) == Some(Dir)
    else IsFile(f(it.Staged())) && NothingBelow(f, it.Staged())
  }

  ghost predicate BackupShape(f: Tree, it: Item) {
    it.hadExisting ==>
      if it.request.kind.Directory? then f(it.Backup()) == Some(Dir)
      else IsFile(f(it.Backup())) && NothingBelow(f, it.Backup())
  }

  /** Only the target, and the staged copy that may move there, differ. */
  ghost predicate OnlyItem(f: Tree, g: Tree, it: Item) {
    forall q | !(it.Destination() <= q) && !(it.Staged() <= q) :: f(q) == g(q)
  }

  /** The new target is the staged tree. */
  ghost predicate Applied(f: Tree, g: Tree, it: Item) {
    SameTree(g, it.Destination(), f, it.Staged())
  }

  /** `_apply_restore_item`. Only the plain file's replacement is atomic. */
  method ApplyItem(v: Volume, it: Item) returns (ok: bool)
    requires Unrelated(it.container, it.Destination()) && TargetShape(v.fs, it) && StagedShape(v.fs, it)
    modifies v
    ensures OnlyItem(old(v.fs), v.fs, it) && TargetShape(v.fs, it)
    ensures ok ==> Applied(old(v.fs), v.fs, it)
    ensures !ok && it.request.kind.Plain? ==> v.fs == old(v.fs)
    ensures old(v.Healthy()) ==> v.Healthy()
    ensures old(v.Healthy()) && old(v.fs)(Parent(it.Destination())) == Some(Dir) && it.Destination() != [] ==> ok
  {
    ghost var f := v.fs;
    var d := it.Destination();
    BelowContainer(it);
    UnrelatedBelow(it.container, d, it.Staged());
    if it.request.kind.Directory? {
      ok := v.RemovePath(d);
      if ok {
        ghost var g := v.fs;
        UnrelatedKept(f, g, d, it.Staged());
        assert d != [] ==> g(Parent(d)) == f(Parent(d));
        ok := v.Replace(it.Staged(), d);
        if ok {
          SameTreeKept(v.fs, d, g, f, it.Staged());
          assert it.Staged() + d[|d|..] == it.Staged();
          assert v.fs(d) == Some(Dir);
        }
      }
    } else if it.request.kind.Sqlite? {
      ok := v.CopyFile(it.Staged(), d);
      if ok {
        SameLeaf(v.fs, d, f, it.Staged());
      }
    } else {
      ok := v.Replace(it.Staged(), d);
      if ok {
        MovedLeaf(f, v.fs, it.Staged(), d);
      }
    }
  }

  lemma MovedLeaf(f: Tree, g: Tree, s: Path, d: Path)
    requires SameTree(g, d, f, s) && IsFile(f(s)) && NothingBelow(f, s)
    ensures IsFile(g(d)) && NothingBelow(g, d)
  {
    assert s + d[|d|..] == s;
    forall q | d < q
      ensures g(q) == None
    {
      assert s < s + q[|d|..];
    }
  }

  // ----- Undoing one item -----

  /** The target is back: equal to its backup, or gone when there was none. */
  ghost predicate Undone(f: Tree, g: Tree, it: Item) {
    if it.hadExisting then SameTree(g, it.Destination(), f, it.Backup()) else Gone(g, it.Destination())
  }

  /** `_rollback_restore_item`. */
  method RollbackItem(v: Volume, it: Item) returns (ok: bool)
    requires Unrelated(it.container, it.Destination()) && TargetShape(v.fs, it) && BackupShape(v.fs, it)
    modifies v
    ensures OnlyAt(old(v.fs), v.fs, it.Destination())
    ensures ok ==> Undone(old(v.fs), v.fs, it)
    ensures old(v.Healthy()) ==> v.Healthy()
    ensures old(v.Healthy()) && old(v.fs)(Parent(it.Destination())) == Some(Dir) && it.Destination() != [] ==> ok
  {
    ghost var f := v.fs;
    var d := it.Destination();
    BelowContainer(it);
    UnrelatedBelow(it.container, d, it.Backup());
    if !it.hadExisting {
      ok := v.RemovePath(d);
      return;
    }
    if it.request.kind.Sqlite? {
      ok := v.CopyFile(it.Backup(), d);
      if ok {
        SameLeaf(v.fs, d, f, it.Backup());
      }
      return;
    }
    ok := v.RemovePath(d);
    if !ok {
      return;
    }
    ghost var g := v.fs;
    UnrelatedKept(f, g, d, it.Backup());
    assert d != [] ==> g(Parent(d)) == f(Parent(d));
    if v.fs(it.Backup()) == Some(Dir) {
      ok := v.CopyTree(it.Backup(), d);
      if ok {
        SameTreeKept(v.fs, d, g, f, it.Backup());
      }
    } else {
      ok := v.CopyFile(it.Backup(), d);
      if ok {
        SameLeaf(v.fs, d, f, it.Backup());
      }
    }
  }

  // ----- Committing and undoing the whole list -----

  /** Everything a commit or a rollback relies on, for each item. */
  ghost predicate Shaped(f: Tree, items: seq<Item>) {
    forall i | 0 <= i < |items| :: TargetShape(f, items[i]) && BackupShape(f, items[i])
  }

  ghost predicate ParentsExist(f: Tree, items: seq<Item>) {
    forall i | 0 <= i < |items| :: items[i].Destination() != [] && f(Parent(items[i].Destination())) == Some(Dir)
  }

  ghost predicate AllStaged(f: Tree, items: seq<Item>) {
    forall i | 0 <= i < |items| :: StagedShape(f, items[i])
  }

  /** `p` lies in no target and in no staged copy of the first `n` items. */
  ghost predicate OutsideItems(items: seq<Item>, n: nat, p: Path)
    requires n <= |items|
  {
    forall i | 0 <= i < n :: !(items[i].Destination() <= p) && !(items[i].Staged() <= p)
  }

  ghost predicate OnlyItems(f: Tree, g: Tree, items: seq<Item>, n: nat)
    requires n <= |items|
  {
    forall q | OutsideItems(items, n, q) :: f(q) == g(q)
  }

  /** A change of one item leaves the other items, and its own backup, alone. */
  lemma ItemKeeps(f: Tree, g: Tree, items: seq<Item>, i: nat, j: nat)
    requires Separate(items) && i < |items| && j < |items| && OnlyItem(f, g, items[i])
    ensures Kept(f, g, items[j].Backup())
    ensures i != j ==> Kept(f, g, items[j].Staged()) && Kept(f, g, items[j].Destination())
  {
    BelowContainer(items[i]);
    BelowContainer(items[j]);
    var d, s := items[i].Destination(), items[i].Staged();
    var a, b, c := items[j].Backup(), items[j].Staged(), items[j].Destination();
    UnrelatedBelow(items[j].container, d, a);
    UnrelatedBelow(items[j].container, d, b);
    UnrelatedBelow(items[i].container, c, s);
    if i != j {
      UnrelatedBelow(items[i].container, items[j].container, s);
      UnrelatedBelow(items[j].container, s, a);
      UnrelatedBelow(items[j].container, s, b);
      TwoKept(f, g, d, s, b);
      TwoKept(f, g, d, s, c);
    }
    TwoKept(f, g, d, s, a);
  }

  lemma TwoKept(f: Tree, g: Tree, p: Path, r: Path, q: Path)
    requires forall x | !(p <= x) && !(r <= x) :: f(x) == g(x)
    requires Unrelated(p, q) && Unrelated(r, q)
    ensures Kept(f, g, q)
  {
    forall x | q <= x
      ensures f(x) == g(x)
    {
      if p <= x {
        ComparablePrefixes(p, q, x);
      }
      if r <= x {
        ComparablePrefixes(r, q, x);
      }
    }
  }

  /** Where the commit loop stands: the first `n` targets are applied, the rest is as it was. */
  ghost predicate CommitInv(f: Tree, g: Tree, items: seq<Item>, n: nat)
    requires n <= |items|
  {
    && (forall i | 0 <= i < n :: Applied(f, g, items[i]))
    && (forall i | n <= i < |items| :: Kept(f, g, items[i].Destination()) && Kept(f, g, items[i].Staged()))
    && (forall i | 0 <= i < |items| :: Kept(f, g, items[i].Backup()))
    && OnlyItems(f, g, items, n)
  }

  lemma CommitStep(f: Tree, g: Tree, h: Tree, items: seq<Item>, n: nat)
    requires Separate(items) && n < |items| && CommitInv(f, g, items, n)
    requires OnlyItem(g, h, items[n]) && Applied(g, h, items[n])
    ensures CommitInv(f, h, items, n + 1)
  {
    SameTreeKept(h, items[n].Destination(), g, f, items[n].Staged());
    CommitFrame(f, g, h, items, n);
  }

  lemma CommitFrame(f: Tree, g: Tree, h: Tree, items: seq<Item>, n: nat)
    requires Separate(items) && n < |items| && CommitInv(f, g, items, n) && OnlyItem(g, h, items[n])
    ensures forall i | 0 <= i < n :: Applied(f, h, items[i])
    ensures forall i | n < i < |items| :: Kept(f, h, items[i].Destination()) && Kept(f, h, items[i].Staged())
    ensures forall i | 0 <= i < |items| :: Kept(f, h, items[i].Backup())
    ensures OnlyItems(f, h, items, n + 1)
  {
    forall i | 0 <= i < |items|
      ensures Kept(g, h, items[i].Backup())
      ensures i != n ==> Kept(g, h, items[i].Destination()) && Kept(g, h, items[i].Staged())
    {
      ItemKeeps(g, h, items, n, i);
    }
    forall q | OutsideItems(items, n + 1, q)
      ensures f(q) == h(q)
    {
      assert OutsideItems(items, n, q);
    }
  }

  /** The shapes survive as long as targets not yet reached are untouched. */
  lemma ShapeKept(f: Tree, g: Tree, it: Item)
    requires TargetShape(f, it) && Kept(f, g, it.Destination())
    ensures TargetShape(g, it)
  {
  }

  lemma BackupShapeKept(f: Tree, g: Tree, it: Item)
    requires BackupShape(f, it) && Kept(f, g, it.Backup())
    ensures BackupShape(g, it)
  {
  }

  lemma ShapedStep(g: Tree, h: Tree, items: seq<Item>, n: nat)
    requires Separate(items) && n < |items| && OnlyItem(g, h, items[n])
    requires Shaped(g, items) && TargetShape(h, items[n])
    ensures Shaped(h, items)
  {
    forall i | 0 <= i < |items|
      ensures TargetShape(h, items[i]) && BackupShape(h, items[i])
    {
      ItemKeeps(g, h, items, n, i);
      BackupShapeKept(g, h, items[i]);
      if i != n {
        ShapeKept(g, h, items[i]);
      }
    }
  }

  lemma ParentsKept(f: Tree, g: Tree, items: seq<Item>)
    requires Separate(items) && OnlyItems(f, g, items, |items|) && ParentsExist(f, items)
    ensures ParentsExist(g, items)
  {
    forall i | 0 <= i < |items|
      ensures g(Parent(items[i].Destination())) == Some(Dir)
    {
      var p := Parent(items[i].Destination());
      forall j | 0 <= j < |items|
        ensures !(items[j].Destination() <= p) && !(items[j].Staged() <= p)
      {
        assert p < items[i].Destination();
        BelowContainer(items[j]);
        assert j != i ==> Unrelated(items[j].Destination(), items[i].Destination());
        assert Unrelated(items[j].container, items[i].Destination());
      }
      assert OutsideItems(items, |items|, p);
    }
  }

  lemma OnlyItemsGrows(f: Tree, g: Tree, items: seq<Item>, n: nat)
    requires n <= |items| && OnlyItems(f, g, items, n)
    ensures OnlyItems(f, g, items, |items|)
  {
    forall q | OutsideItems(items, |items|, q)
      ensures f(q) == g(q)
    {
      assert OutsideItems(items, n, q);
    }
  }

  /** What a commit leaves in every case: only targets and staged copies differ, backups are intact,
      and the targets from `n` on are as they were. */
  ghost predicate Undoable(f: Tree, g: Tree, items: seq<Item>, n: nat)
    requires n <= |items|
  {
    && OnlyItems(f, g, items, |items|) && Shaped(g, items)
    && (forall i | 0 <= i < |items| :: Kept(f, g, items[i].Backup()))
    && (forall i | n <= i < |items| :: Kept(f, g, items[i].Destination()))
  }

  /** The commit loop (lines 365-373). `committed` counts the items a rollback has to undo: the failing
      item is one of them unless its replacement is atomic. */
  method Commit(v: Volume, items: seq<Item>) returns (ok: bool, committed: nat)
    requires Separate(items) && Shaped(v.fs, items) && AllStaged(v.fs, items)
    modifies v
    ensures committed <= |items| && Undoable(old(v.fs), v.fs, items, committed)
    ensures ok ==> committed == |items| && forall i | 0 <= i < |items| :: Applied(old(v.fs), v.fs, items[i])
    ensures old(v.Healthy()) ==> v.Healthy()
    ensures old(v.Healthy()) && ParentsExist(old(v.fs), items) ==> ok
  {
    ghost var f := v.fs;
    committed := 0;
    while committed < |items|
      invariant committed <= |items| && CommitInv(f, v.fs, items, committed) && Shaped(v.fs, items)
      invariant old(v.Healthy()) ==> v.Healthy()
    {
      var n, it := committed, items[committed];
      ghost var g := v.fs;
      var preemptive := it.request.kind.Directory? || it.request.kind.Sqlite?;
      if preemptive {
        committed := n + 1;
      }
      StagedShapeKept(f, g, it);
      OnlyItemsGrows(f, g, items, n);
      if ParentsExist(f, items) {
        ParentsKept(f, g, items);
      }
      ok := ApplyItem(v, it);
      ShapedStep(g, v.fs, items, n);
      if !ok {
        CommitFrame(f, g, v.fs, items, n);
        OnlyItemsGrows(f, v.fs, items, n + 1);
        return;
      }
      if !preemptive {
        committed := n + 1;
      }
      CommitStep(f, g, v.fs, items, n);
    }
    ok := true;
  }

  lemma StagedShapeKept(f: Tree, g: Tree, it: Item)
    requires StagedShape(f, it) && Kept(f, g, it.Staged())
    ensures StagedShape(g, it)
  {
  }

  /** Where the rollback loop stands: the targets from `n` to `m` are undone unless an error occurred. */
  ghost predicate UndoInv(f: Tree, g: Tree, items: seq<Item>, n: nat, m: nat, clean: bool)
    requires n <= m <= |items|
  {
    && (forall i | n <= i < m && clean :: Undone(f, g, items[i]))
    && (forall i | 0 <= i < |items| && !(n <= i < m) :: Kept(f, g, items[i].Destination()))
    && (forall i | 0 <= i < |items| :: Kept(f, g, items[i].Backup()))
    && OnlyItems(f, g, items, |items|)
  }

  lemma UndoStep(f: Tree, g: Tree, h: Tree, items: seq<Item>, n: nat, m: nat, clean: bool, ok: bool)
    requires Separate(items) && n < m <= |items| && UndoInv(f, g, items, n + 1, m, clean)
    requires OnlyAt(g, h, items[n].Destination()) && (ok ==> Undone(g, h, items[n]))
    ensures UndoInv(f, h, items, n, m, clean && ok)
  {
    assert OnlyItem(g, h, items[n]);
    forall i | 0 <= i < |items|
      ensures Kept(g, h, items[i].Backup()) && (i != n ==> Kept(g, h, items[i].Destination()))
    {
      ItemKeeps(g, h, items, n, i);
    }
    if ok && items[n].hadExisting {
      SameTreeKept(h, items[n].Destination(), g, f, items[n].Backup());
    }
    UndoOutside(f, g, h, items, n);
  }

  lemma UndoOutside(f: Tree, g: Tree, h: Tree, items: seq<Item>, n: nat)
    requires n < |items| && OnlyItems(f, g, items, |items|) && OnlyAt(g, h, items[n].Destination())
    ensures OnlyItems(f, h, items, |items|)
  {
    forall q | OutsideItems(items, |items|, q)
      ensures f(q) == h(q)
    {
      assert !(items[n].Destination() <= q);
    }
  }

  /** The rollback loop (lines 375-380), last item first. It goes on after an error. */
  method Rollback(v: Volume, items: seq<Item>, committed: nat) returns (clean: bool)
    requires Separate(items) && Shaped(v.fs, items) && committed <= |items|
    modifies v
    ensures UndoInv(old(v.fs), v.fs, items, 0, committed, clean)
    ensures old(v.Healthy()) ==> v.Healthy()
    ensures old(v.Healthy()) && ParentsExist(old(v.fs), items) ==> clean
  {
    ghost var f := v.fs;
    clean := true;
    var n: nat := committed;
    while n > 0
      invariant n <= committed && UndoInv(f, v.fs, items, n, committed, clean)
      invariant old(v.Healthy()) ==> v.Healthy()
      invariant old(v.Healthy()) && ParentsExist(f, items) ==> clean
    {
      n := n - 1;
      ghost var g := v.fs;
      ShapeKept(f, g, items[n]);
      BackupShapeKept(f, g, items[n]);
      if ParentsExist(f, items) {
        ParentsKept(f, g, items);
      }
      var ok := RollbackItem(v, items[n]);
      UndoStep(f, g, v.fs, items, n, committed, clean, ok);
      clean := clean && ok;
    }
  }

  // ----- Cleaning up -----

  /** The `finally` clause (lines 386-389). It stops at the first container that cannot be removed. */
  method RemoveContainers(v: Volume, items: seq<Item>) returns (cleaned: bool)
    requires Separate(items) && forall i | 0 <= i < |items| :: Rooted(v.fs, items[i].container)
    modifies v
    ensures forall q | !InContainer(items, q) :: v.fs(q) == old(v.fs)(q)
    ensures cleaned ==> forall i | 0 <= i < |items| :: Gone(v.fs, items[i].container)
    ensures old(v.Healthy()) ==> v.Healthy() && cleaned
  {
    ghost var f := v.fs;
    var i := 0;
    while i < |items|
      invariant 0 <= i <= |items|
      invariant forall q | !InContainer(items, q) :: v.fs(q) == f(q)
      invariant forall j | 0 <= j < i :: Gone(v.fs, items[j].container)
      invariant forall j | i <= j < |items| :: Kept(f, v.fs, items[j].container)
      invariant old(v.Healthy()) ==> v.Healthy()
    {
      ghost var g := v.fs;
      RootedKept(f, g, items[i].container);
      cleaned := v.RemovePath(items[i].container);
      forall j | 0 <= j < |items| && j != i
        ensures Kept(g, v.fs, items[j].container)
      {
        UnrelatedKept(g, v.fs, items[i].container, items[j].container);
      }
      if !cleaned {
        return;
      }
      i := i + 1;
    }
    cleaned := true;
  }

  lemma RootedKept(f: Tree, g: Tree, p: Path)
    requires Rooted(f, p) && Kept(f, g, p)
    ensures Rooted(g, p)
  {
  }

  /** The content checks on the staged copies (lines 357-363), which only read. */
  method CheckStaged(v: Volume, items: seq<Item>) returns (ok: bool)
    modifies v`script
    ensures ok ==> forall i | 0 <= i < |items| :: AcceptedAt(v.fs, items[i].Staged(), items[i].request)
    ensures old(v.Healthy()) ==> v.Healthy()
    ensures (old(v.Healthy()) && forall i | 0 <= i < |items| :: AcceptedAt(v.fs, items[i].Staged(), items[i].request))
            ==> ok
  {
    for i := 0 to |items|
      invariant forall j | 0 <= j < i :: AcceptedAt(v.fs, items[j].Staged(), items[j].request)
      invariant old(v.Healthy()) ==> v.Healthy()
    {
      var fault := v.Decide();
      if fault.Fails? || !AcceptedAt(v.fs, items[i].Staged(), items[i].request) {
        return false;
      }
    }
    ok := true;
  }

  /** The database, audit log or state file at `p` passes its check; directories are not checked. */
  predicate AcceptedAt(f: Tree, p: Path, r: Request) {
    r.kind.Directory? || (IsFile(f(p)) && r.accepts(f(p).value.content))
  }

  // ----- The whole restore -----

  ghost predicate InContainers(plan: seq<Request>, names: seq<string>, q: Path)
    requires |names| == |plan|
  {
    exists i | 0 <= i < |plan| :: ContainerOf(plan[i], names[i]) <= q
  }

  /** Outside the targets nothing changed, except directories created above them and, unless the
      clean-up succeeded, what is left in a container. */
  ghost predicate Framed(f: Tree, g: Tree, plan: seq<Request>, names: seq<string>, cleaned: bool)
    requires |names| == |plan|
  {
    forall q | !InTarget(plan, q) && (cleaned || !InContainers(plan, names, q)) :: KeptOrParent(f, g, plan, q)
  }

  ghost predicate AllRestored(f: Tree, g: Tree, plan: seq<Request>) {
    forall i | 0 <= i < |plan| :: SameTree(g, plan[i].destination, f, plan[i].source)
  }

  ghost predicate AllAsBefore(f: Tree, g: Tree, plan: seq<Request>) {
    forall i | 0 <= i < |plan| :: Kept(f, g, plan[i].destination)
  }

  /** After staging, every item has the shape a commit needs. */
  lemma StagedShapes(f: Tree, g: Tree, snapshot: Path, plan: seq<Request>, names: seq<string>, items: seq<Item>)
    requires Sound(f, snapshot, plan, names) && StageInv(f, g, plan, names, items) && AllComplete(f, g, items)
    ensures Shaped(g, items) && AllStaged(g, items) && ParentsExist(g, items)
    ensures forall i | 0 <= i < |items| :: Kept(f, g, items[i].Destination())
  {
    forall i | 0 <= i < |items|
      ensures TargetShape(g, items[i]) && BackupShape(g, items[i]) && StagedShape(g, items[i])
      ensures items[i].Destination() != [] && Kept(f, g, items[i].Destination())
      ensures g(Parent(items[i].Destination())) == Some(Dir)
    {
      assert SafeTarget(snapshot, plan[i].destination) && RightType(f, plan[i]);
      assert Complete(f, g, items[i]);
      BeforeRound(f, g, snapshot, plan, names, items, i);
      OneShape(f, g, items[i]);
    }
  }

  lemma OneShape(f: Tree, g: Tree, it: Item)
    requires WellFormed(f) && RightType(f, it.request) && Complete(f, g, it) && Kept(f, g, it.Destination())
    ensures TargetShape(g, it) && BackupShape(g, it) && StagedShape(g, it)
  {
    var d, s := it.Destination(), it.request.source;
    if f(d) != Some(Dir) {
      LeafOrMissing(f, d);
      NothingBelowKept(f, g, d);
    }
    SameShape(f, g, s, it.Staged());
    if it.hadExisting {
      SameShape(f, g, d, it.Backup());
    }
  }

  lemma NothingBelowKept(f: Tree, g: Tree, d: Path)
    requires NothingBelow(f, d) && Kept(f, g, d)
    ensures NothingBelow(g, d) && Rooted(g, d)
  {
    forall q | d < q
      ensures g(q) == None
    {
      assert f(q) == g(q);
    }
    if g(d) == None {
      forall q | d <= q
        ensures g(q) == None
      {
        assert q == d || d < q;
      }
    }
  }

  lemma SameShape(f: Tree, g: Tree, s: Path, p: Path)
    requires WellFormed(f) && SameTree(g, p, f, s)
    ensures g(p) == f(s)
    ensures IsFile(f(s)) ==> NothingBelow(g, p)
  {
    assert s + p[|p|..] == s;
    if IsFile(f(s)) {
      LeafOrMissing(f, s);
      forall q | p < q
        ensures g(q) == None
      {
        assert s < s + q[|p|..];
      }
    }
  }

  /** A clean rollback brings every target back to what it was before the restore. */
  lemma UndoneIsAsBefore(f: Tree, g: Tree, h: Tree, k: Tree, it: Item)
    requires WellFormed(f) && BackedUp(f, g, it)
    requires Kept(g, h, it.Backup()) && Undone(h, k, it)
    ensures Kept(f, k, it.Destination())
  {
    var d := it.Destination();
    if it.hadExisting {
      SameTreeKept(k, d, h, g, it.Backup());
      SameTreeTrans(k, d, g, it.Backup(), f, d);
      SameTreeIsKept(k, d, f);
    } else {
      LeafOrMissing(f, d);
      forall q | d <= q
        ensures f(q) == k(q)
      {
        assert q == d || d < q;
      }
    }
  }

  lemma RolledBack(f: Tree, g: Tree, h: Tree, k: Tree, items: seq<Item>, m: nat)
    requires WellFormed(f) && m <= |items| && AllComplete(f, g, items)
    requires forall i | 0 <= i < |items| :: Kept(f, g, items[i].Destination())
    requires Undoable(g, h, items, m) && UndoInv(h, k, items, 0, m, true)
    ensures forall i | 0 <= i < |items| :: Kept(f, k, items[i].Destination())
  {
    forall i | 0 <= i < |items|
      ensures Kept(f, k, items[i].Destination())
    {
      assert Complete(f, g, items[i]);
      if i < m {
        UndoneIsAsBefore(f, g, h, k, items[i]);
      }
    }
  }

  /** The frame of a restore, from the frames of its phases. */
  lemma FrameOfRestore(f: Tree, g: Tree, k: Tree, l: Tree, plan: seq<Request>, names: seq<string>, items: seq<Item>,
                       cleaned: bool)
    requires |names| == |plan| && WellFormed(f) && StageInv(f, g, plan, names, items)
    requires OnlyItems(g, k, items, |items|)
    requires forall q | !InContainer(items, q) :: l(q) == k(q)
    requires cleaned ==> forall i | 0 <= i < |items| :: Gone(l, items[i].container)
    ensures Framed(f, l, plan, names, cleaned)
  {
    forall q | !InTarget(plan, q) && (cleaned || !InContainers(plan, names, q))
      ensures KeptOrParent(f, l, plan, q)
    {
      if InContainer(items, q) {
        var i :| 0 <= i < |items| && items[i].container <= q;
        assert ContainerOf(plan[i], names[i]) <= q;
        assert l(q) == None;
        LeafOrMissing(f, items[i].container);
        assert q == items[i].container || items[i].container < q;
      } else {
        OutsideAll(plan, names, items, q);
        assert KeptOrParent(f, g, plan, q);
      }
    }
  }

  lemma OutsideAll(plan: seq<Request>, names: seq<string>, items: seq<Item>, q: Path)
    requires |names| == |plan| && ItemsOf(items, plan, names) && !InTarget(plan, q) && !InContainer(items, q)
    ensures OutsideItems(items, |items|, q)
  {
    forall i | 0 <= i < |items|
      ensures !(items[i].Destination() <= q) && !(items[i].Staged() <= q)
    {
      BelowContainer(items[i]);
      assert items[i].Destination() == plan[i].destination;
    }
  }

  lemma ContainersStillThere(g: Tree, k: Tree, items: seq<Item>)
    requires Separate(items) && OnlyItems(g, k, items, |items|)
    requires forall i | 0 <= i < |items| :: g(items[i].container) == Some(Dir)
    ensures forall i | 0 <= i < |items| :: Rooted(k, items[i].container)
  {
    forall i | 0 <= i < |items|
      ensures Rooted(k, items[i].container)
    {
      forall j | 0 <= j < |items|
        ensures !(items[j].Destination() <= items[i].container) && !(items[j].Staged() <= items[i].container)
      {
        BelowContainer(items[j]);
        assert Unrelated(items[i].container, items[j].Destination());
        assert i != j ==> Unrelated(items[i].container, items[j].container);
      }
      assert OutsideItems(items, |items|, items[i].container);
    }
  }

  /** Every source file passes its content check. */
  predicate Accepted(f: Tree, plan: seq<Request>) {
    forall i | 0 <= i < |plan| :: AcceptedAt(f, plan[i].source, plan[i])
  }

  lemma StagedAccepted(f: Tree, g: Tree, plan: seq<Request>, names: seq<string>, items: seq<Item>)
    requires |names| == |plan| && ItemsOf(items, plan, names) && AllComplete(f, g, items)
    ensures Accepted(f, plan) ==> forall i | 0 <= i < |items| :: AcceptedAt(g, items[i].Staged(), items[i].request)
  {
    if Accepted(f, plan) {
      forall i | 0 <= i < |items|
        ensures AcceptedAt(g, items[i].Staged(), items[i].request)
      {
        assert Complete(f, g, items[i]) && AcceptedAt(f, plan[i].source, plan[i]);
        var s, p := items[i].request.source, items[i].Staged();
        assert s + p[|p|..] == s;
      }
    }
  }

  ghost predicate TargetsRestored(f: Tree, g: Tree, items: seq<Item>) {
    forall i | 0 <= i < |items| :: SameTree(g, items[i].Destination(), f, items[i].request.source)
  }

  ghost predicate TargetsAsBefore(f: Tree, g: Tree, items: seq<Item>) {
    forall i | 0 <= i < |items| :: Kept(f, g, items[i].Destination())
  }

  lemma AppliedIsRestored(f: Tree, g: Tree, h: Tree, items: seq<Item>)
    requires AllComplete(f, g, items) && forall i | 0 <= i < |items| :: Applied(g, h, items[i])
    ensures TargetsRestored(f, h, items)
  {
    forall i | 0 <= i < |items|
      ensures SameTree(h, items[i].Destination(), f, items[i].request.source)
    {
      assert Complete(f, g, items[i]);
      SameTreeTrans(h, items[i].Destination(), g, items[i].Staged(), f, items[i].request.source);
    }
  }

  lemma OnlyItemsTrans(f: Tree, g: Tree, h: Tree, items: seq<Item>)
    requires OnlyItems(f, g, items, |items|) && OnlyItems(g, h, items, |items|)
    ensures OnlyItems(f, h, items, |items|)
  {
  }

  /** Lines 365-385: commit, and undo what was committed when an item fails. `f` is the volume before staging. */
  method CommitOrUndo(v: Volume, ghost f: Tree, items: seq<Item>) returns (outcome: Outcome)
    requires WellFormed(f) && Separate(items) && Shaped(v.fs, items) && AllStaged(v.fs, items)
    requires AllComplete(f, v.fs, items) && TargetsAsBefore(f, v.fs, items) && ParentsExist(v.fs, items)
    modifies v
    ensures OnlyItems(old(v.fs), v.fs, items, |items|)
    ensures outcome.Restored? || outcome.RestoreFailed? || outcome.RollbackFailed?
    ensures outcome.Restored? ==> TargetsRestored(f, v.fs, items)
    ensures outcome.RestoreFailed? ==> TargetsAsBefore(f, v.fs, items)
    ensures old(v.Healthy()) ==> v.Healthy() && outcome.Restored?
  {
    ghost var g := v.fs;
    var ok, committed := Commit(v, items);
    ghost var h := v.fs;
    if ok {
      AppliedIsRestored(f, g, h, items);
      return Restored;
    }
    var clean := Rollback(v, items, committed);
    OnlyItemsTrans(g, h, v.fs, items);
    if !clean {
      return RollbackFailed;
    }
    RolledBack(f, g, h, v.fs, items, committed);
    return RestoreFailed;
  }

  /** Staging and clean-up leave the targets alone, so the commit phase decides what they hold. */
  lemma TargetsAtTheEnd(f: Tree, g: Tree, k: Tree, l: Tree, snapshot: Path, plan: seq<Request>, names: seq<string>,
                        items: seq<Item>, i: nat)
    requires Sound(f, snapshot, plan, names) && StageInv(f, g, plan, names, items) && i < |plan|
    requires forall q | !InContainer(items, q) :: l(q) == k(q)
    ensures Kept(k, l, plan[i].destination)
    ensures k == g ==> Kept(f, l, plan[i].destination)
  {
    var d := plan[i].destination;
    forall j | 0 <= j < |items|
      ensures Unrelated(items[j].container, d)
    {
      ContainerApart(f, snapshot, plan, names, j, i);
    }
    forall q | d <= q
      ensures k(q) == l(q)
    {
      NotInContainer(items, d, q);
    }
    BeforeRound(f, g, snapshot, plan, names, items, i);
  }

  /** Unless a target is the snapshot itself, a restore leaves the snapshot as it was. */
  lemma SnapshotKept(f: Tree, g: Tree, snapshot: Path, plan: seq<Request>, names: seq<string>)
    requires Sound(f, snapshot, plan, names) && Framed(f, g, plan, names, true)
    requires forall i | 0 <= i < |plan| :: plan[i].destination != snapshot
    ensures Kept(f, g, snapshot)
  {
    forall q | snapshot <= q
      ensures f(q) == g(q)
    {
      NotAboveTarget(plan, snapshot, snapshot, q);
      forall i | 0 <= i < |plan|
        ensures !(plan[i].destination <= q)
      {
        assert SafeTarget(snapshot, plan[i].destination);
        if plan[i].destination <= q {
          ComparablePrefixes(plan[i].destination, snapshot, q);
          assert false;
        }
      }
      assert !InTarget(plan, q);
      assert KeptOrParent(f, g, plan, q);
    }
  }

  /** The checks let a target equal the snapshot, and then a successful restore destroys it: what is left
      there is its own `artifacts` tree, so a snapshot whose artifacts hold no `data` entry is lost. */
  lemma RestoreOntoSnapshot(f: Tree, g: Tree, snapshot: Path, plan: seq<Request>, i: nat)
    requires AllRestored(f, g, plan) && i < |plan|
    requires plan[i].destination == snapshot && plan[i].source == snapshot + ["data", "artifacts"]
    requires f(snapshot + ["data"]) == Some(Dir) && f(snapshot + ["data", "artifacts", "data"]) == None
    ensures g(snapshot + ["data"]) == None && !Kept(f, g, snapshot)
  {
    var q := snapshot + ["data"];
    assert snapshot <= q && q[|snapshot|..] == ["data"];
    assert SameTree(g, snapshot, f, plan[i].source);
    assert plan[i].source + ["data"] == snapshot + ["data", "artifacts", "data"];
    assert f(q) != g(q);
  }

  function Repeated(x: Path, k: nat): Path {
    if k == 0 then [] else x + Repeated(x, k - 1)
  }

  /** A tree that is the same as a tree inside it goes on for ever. */
  lemma {:induction false} SelfSimilar(f: Tree, s: Path, x: Path, k: nat)
    requires SameTree(f, s, f, s + x)
    ensures f(s + Repeated(x, k)) == f(s)
  {
    if k == 0 {
      assert s + [] == s;
    } else {
      SelfSimilar(f, s, x, k - 1);
      SameTreeAt(f, s, f, s + x, Repeated(x, k - 1));
      assert s + x + Repeated(x, k - 1) == s + Repeated(x, k);
    }
  }

  lemma {:induction false} RepeatedLength(x: Path, k: nat)
    requires x != []
    ensures |Repeated(x, k)| >= k
  {
    if k > 0 {
      RepeatedLength(x, k - 1);
    }
  }

  /** No path is longer than `depth`, as on every real volume. */
  ghost predicate Finite(f: Tree, depth: nat) {
    forall q | |q| > depth :: f(q) == None
  }

  /** In a finite volume that is only so where there is nothing. */
  lemma SelfSimilarIsEmpty(f: Tree, s: Path, x: Path, depth: nat)
    requires Finite(f, depth) && x != [] && SameTree(f, s, f, s + x)
    ensures f(s) == None
  {
    var deep := s + Repeated(x, depth + 1);
    RepeatedLength(x, depth + 1);
    SelfSimilar(f, s, x, depth + 1);
    assert |deep| > depth && f(deep) == f(s);
  }

  lemma KeptIsSelfSimilar(f: Tree, g: Tree, s: Path, r: Path)
    requires SameTree(g, s, f, r) && Kept(f, g, s)
    ensures SameTree(f, s, f, r)
  {
  }

  /** What a target that equals the snapshot holds in the end is one of the snapshot's own parts. */
  lemma OverwrittenSnapshot(f: Tree, g: Tree, snapshot: Path, r: Path, depth: nat)
    requires Finite(f, depth) && f(snapshot).Some? && snapshot < r && SameTree(g, snapshot, f, r)
    ensures !Kept(f, g, snapshot)
  {
    if Kept(f, g, snapshot) {
      KeptIsSelfSimilar(f, g, snapshot, r);
      assert snapshot + r[|snapshot|..] == r;
      SelfSimilarIsEmpty(f, snapshot, r[|snapshot|..], depth);
    }
  }

  /** A successful restore, cleaned up after, keeps the snapshot it came from exactly when no target is the
      snapshot itself, a case the checks let through. */
  lemma SnapshotKeptIff(f: Tree, g: Tree, snapshot: Path, plan: seq<Request>, names: seq<string>, depth: nat)
    requires Sound(f, snapshot, plan, names) && Framed(f, g, plan, names, true) && AllRestored(f, g, plan)
    requires Finite(f, depth) && f(snapshot).Some?
    ensures Kept(f, g, snapshot) <==> forall i | 0 <= i < |plan| :: plan[i].destination != snapshot
  {
    if forall i | 0 <= i < |plan| :: plan[i].destination != snapshot {
      SnapshotKept(f, g, snapshot, plan, names);
    } else {
      var i :| 0 <= i < |plan| && plan[i].destination == snapshot;
      OverwrittenSnapshot(f, g, snapshot, plan[i].source, depth);
    }
  }

  /** The whole of `restore_system_snapshot`. Whatever fails, and wherever: unless a rollback step itself
      fails, the targets are all restored or all exactly as before. When `cleaned` is false the caller
      sees the error of the removal instead of the outcome. */
  method Restore(v: Volume, snapshot: Path, plan: seq<Request>, names: seq<string>)
    returns (outcome: Outcome, cleaned: bool)
    requires WellFormed(v.fs) && PlanOf(snapshot, plan) && NamesAvoid(snapshot, plan, names)
    modifies v
    ensures outcome.Rejected? <==> !(AllSafe(snapshot, plan) && AllTyped(old(v.fs), plan) && AllApart(plan))
    ensures outcome.Rejected? ==> v.fs == old(v.fs)
    ensures outcome.Restored? ==> AllRestored(old(v.fs), v.fs, plan)
    ensures outcome.StagingFailed? || outcome.RestoreFailed? ==> AllAsBefore(old(v.fs), v.fs, plan)
    ensures Framed(old(v.fs), v.fs, plan, names, cleaned)
    ensures (old(v.Healthy()) && !outcome.Rejected? && Ready(old(v.fs), plan, names) && Accepted(old(v.fs), plan))
            ==> outcome.Restored? && cleaned
  {
    ghost var f := v.fs;
    cleaned := true;
    var error := CheckTargets(v.fs, snapshot, plan);
    if error.Some? {
      return Rejected(error.value), true;
    }
    var staged, items := Stage(v, snapshot, plan, names);
    ghost var g := v.fs;
    ItemsSeparate(f, g, snapshot, plan, names, items);
    outcome := StagingFailed;
    if staged {
      StagedShapes(f, g, snapshot, plan, names, items);
      StagedAccepted(f, g, plan, names, items);
      var valid := CheckStaged(v, items);
      if valid {
        outcome := CommitOrUndo(v, f, items);
      }
    }
    ghost var k := v.fs;
    ContainersStillThere(g, k, items);
    cleaned := RemoveContainers(v, items);
    FrameOfRestore(f, g, k, v.fs, plan, names, items, cleaned);
    forall i | 0 <= i < |plan|
      ensures Kept(k, v.fs, plan[i].destination)
      ensures k == g ==> Kept(f, v.fs, plan[i].destination)
    {
      TargetsAtTheEnd(f, g, k, v.fs, snapshot, plan, names, items, i);
    }
  }
}
