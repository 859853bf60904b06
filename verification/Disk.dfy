/** A file system as a function from paths to nodes, with the file operations a restore uses.
    A script decides which operations fail, and what one that is not atomic leaves behind. */
module Disk {
  import opened Wrappers
  import opened Text

  type Path = seq<string>

  datatype Node = File(content: bytes) | Dir

  type Tree = Path -> Option<Node>

  /** Whether the next operation works, and what it leaves at its target when it does not. */
  datatype Fault = Works | Fails(debris: Tree)

  function Parent(p: Path): Path {
    if p == [] then [] else p[..|p| - 1]
  }

  predicate IsFile(n: Option<Node>) {
    n.Some? && n.value.File?
  }

  /** A file replaces a file or nothing; a directory needs a free path. */
  predicate CanMove(moved: Option<Node>, target: Option<Node>) {
    moved.Some? && (if moved.value.File? then target != Some(Dir) else target == None)
  }

  ghost predicate Unrelated(p: Path, q: Path) {
    !(p <= q) && !(q <= p)
  }

  /** The tree at `p` in `f` is the tree at `s` in `g`. */
  ghost predicate SameTree(f: Tree, p: Path, g: Tree, s: Path) {
    forall q | p <= q :: f(q) == g(s + q[|p|..])
  }

  /** Nothing changed outside the tree at `p`. */
  ghost predicate OnlyAt(f: Tree, g: Tree, p: Path) {
    forall q | !(p <= q) :: f(q) == g(q)
  }

  /** The tree at `p` did not change. */
  ghost predicate Kept(f: Tree, g: Tree, p: Path) {
    forall q | p <= q :: f(q) == g(q)
  }

  ghost predicate Gone(f: Tree, p: Path) {
    forall q | p <= q :: f(q) == None
  }

  ghost predicate NothingBelow(f: Tree, p: Path) {
    forall q | p < q :: f(q) == None
  }

  /** Where there is no node, there is no tree. */
  ghost predicate Rooted(f: Tree, p: Path) {
    f(p) == None ==> Gone(f, p)
  }

  /** Everything below the root lies in directories. */
  ghost predicate WellFormed(f: Tree) {
    forall p, q | p < q && f(q).Some? :: f(p) == Some(Dir)
  }

  lemma LeafOrMissing(f: Tree, p: Path)
    requires WellFormed(f) && f(p) != Some(Dir)
    ensures NothingBelow(f, p)
  {
  }

  lemma SameTreeTrans(f: Tree, p: Path, g: Tree, s: Path, h: Tree, t: Path)
    requires SameTree(f, p, g, s) && SameTree(g, s, h, t)
    ensures SameTree(f, p, h, t)
  {
    forall q | p <= q
      ensures f(q) == h(t + q[|p|..])
    {
      var x := s + q[|p|..];
      assert s <= x && x[|s|..] == q[|p|..];
    }
  }

  lemma SameTreeKept(f: Tree, p: Path, g: Tree, h: Tree, s: Path)
    requires SameTree(f, p, g, s) && Kept(g, h, s)
    ensures SameTree(f, p, h, s)
  {
    forall q | p <= q
      ensures f(q) == h(s + q[|p|..])
    {
      assert s <= s + q[|p|..];
    }
  }

  lemma SameTreeAt(f: Tree, p: Path, g: Tree, s: Path, rest: Path)
    requires SameTree(f, p, g, s)
    ensures f(p + rest) == g(s + rest)
  {
    assert p <= p + rest && (p + rest)[|p|..] == rest;
  }

  /** Two files with nothing below them are the same tree when their contents agree. */
  lemma SameLeaf(f: Tree, p: Path, g: Tree, s: Path)
    requires f(p) == g(s) && NothingBelow(f, p) && NothingBelow(g, s)
    ensures SameTree(f, p, g, s)
  {
    forall q | p <= q
      ensures f(q) == g(s + q[|p|..])
    {
      if q == p {
        assert s + q[|p|..] == s;
      } else {
        assert s < s + q[|p|..];
      }
    }
  }

  lemma SameTreeIsKept(f: Tree, p: Path, g: Tree)
    requires SameTree(f, p, g, p)
    ensures Kept(g, f, p)
  {
    forall q | p <= q
      ensures p + q[|p|..] == q
    {
    }
  }

  lemma ComparablePrefixes(p: Path, q: Path, x: Path)
    requires p <= x && q <= x
    ensures p <= q || q <= p
  {
    assert p == x[..|p|] && q == x[..|q|];
    if |p| <= |q| {
      assert q[..|p|] == p;
    } else {
      assert p[..|q|] == q;
    }
  }

  /** A change below one path leaves an unrelated tree alone. */
  lemma UnrelatedKept(f: Tree, g: Tree, p: Path, q: Path)
    requires OnlyAt(f, g, p) && Unrelated(p, q)
    ensures Kept(f, g, q)
  {
    forall x | q <= x
      ensures f(x) == g(x)
    {
      if p <= x {
        ComparablePrefixes(p, q, x);
      }
    }
  }

  /** Whatever lies below one of two unrelated paths is unrelated to the other. */
  lemma UnrelatedBelow(p: Path, q: Path, r: Path)
    requires Unrelated(p, q) && p <= r
    ensures Unrelated(r, q)
  {
    if q <= r {
      ComparablePrefixes(p, q, r);
    }
  }

  class Volume {
    var fs: Tree
    var script: seq<Fault>

    constructor (fs: Tree, script: seq<Fault>)
      ensures this.fs == fs && this.script == script
    {
      this.fs, this.script := fs, script;
    }

    /** No operation will fail without a reason. */
    ghost predicate Healthy()
      reads this
    {
      forall f | f in script :: f.Works?
    }

    method Decide() returns (f: Fault)
      modifies this`script
      ensures old(Healthy()) ==> f.Works? && Healthy()
    {
      if script == [] {
        return Works;
      }
      f := script[0];
      script := script[1..];
    }

    /** Leaves some other tree at `p`. */
    method Spoil(p: Path, debris: Tree)
      modifies this`fs
      ensures OnlyAt(old(fs), fs, p) && Rooted(fs, p)
    {
      var g := fs;
      fs := (q: Path) => if !(p <= q) then g(q) else if debris(p) == None then None else debris(q);
    }

    /** `mkdir(parents=True, exist_ok=True)` on the parent of `p`. */
    method MakeParents(p: Path) returns (ok: bool)
      modifies this
      ensures forall q :: fs(q) == old(fs)(q) || (q < p && old(fs)(q) == None && fs(q) == Some(Dir))
      ensures ok ==> forall q | q < p :: fs(q) == Some(Dir)
      ensures old(Healthy()) ==> Healthy()
      ensures old(Healthy()) && (forall q | q < p :: !IsFile(old(fs)(q))) ==> ok
    {
      var fault := Decide();
      var g := fs;
      var blocked := exists n | 0 <= n < |p| :: IsFile(g(p[..n]));
      ok := fault.Works? && !blocked;
      if ok {
        fs := (q: Path) => if q < p && g(q) == None then Some(Dir) else g(q);
        forall q | q < p
          ensures fs(q) == Some(Dir)
        {
          assert q == p[..|q|];
        }
      } else if fault.Fails? {
        var d := fault.debris;
        fs := (q: Path) => if q < p && g(q) == None && d(q) == Some(Dir) then Some(Dir) else g(q);
      }
    }

    /** `mkdtemp`: a new empty directory, which must not exist yet. */
    method MakeTemp(p: Path) returns (ok: bool)
      requires p != []
      modifies this
      ensures ok ==> old(fs)(p) == None && fs(p) == Some(Dir)
      ensures ok ==> forall q | q != p :: fs(q) == old(fs)(q)
      ensures !ok ==> fs == old(fs)
      ensures old(Healthy()) ==> Healthy()
      ensures old(Healthy()) && old(fs)(p) == None && old(fs)(Parent(p)) == Some(Dir) ==> ok
    {
      var fault := Decide();
      var g := fs;
      ok := fault.Works? && g(p) == None && g(Parent(p)) == Some(Dir);
      if ok {
        fs := (q: Path) => if q == p then Some(Dir) else g(q);
      }
    }

    /** `copy2` onto a path that is not a directory. A failing copy may leave a part of the file. */
    method CopyFile(src: Path, dst: Path) returns (ok: bool)
      requires fs(dst) != Some(Dir)
      modifies this
      ensures forall q | q != dst :: fs(q) == old(fs)(q)
      ensures ok ==> IsFile(fs(dst)) && fs(dst) == old(fs)(src)
      ensures !ok ==> fs(dst) == old(fs)(dst) || IsFile(fs(dst))
      ensures old(Healthy()) ==> Healthy()
      ensures old(Healthy()) && IsFile(old(fs)(src)) && old(fs)(Parent(dst)) == Some(Dir) ==> ok
    {
      var fault := Decide();
      var g := fs;
      ok := fault.Works? && IsFile(g(src)) && g(Parent(dst)) == Some(Dir);
      if ok {
        fs := (q: Path) => if q == dst then g(src) else g(q);
      } else if fault.Fails? && IsFile(fault.debris(dst)) {
        var d := fault.debris;
        fs := (q: Path) => if q == dst then d(dst) else g(q);
      }
    }

    /** `copytree` into a path that must not exist. A failing copy may leave a part of the tree. */
    method CopyTree(src: Path, dst: Path) returns (ok: bool)
      requires Rooted(fs, dst)
      modifies this
      ensures OnlyAt(old(fs), fs, dst) && Rooted(fs, dst)
      ensures ok ==> fs(dst) == Some(Dir) && SameTree(fs, dst, old(fs), src)
      ensures old(Healthy()) ==> Healthy()
      ensures (old(Healthy()) && old(fs)(src) == Some(Dir) && old(fs)(dst) == None
               && old(fs)(Parent(dst)) == Some(Dir)) ==> ok
    {
      var fault := Decide();
      var g := fs;
      ok := fault.Works? && g(src) == Some(Dir) && g(dst) == None && g(Parent(dst)) == Some(Dir);
      if ok {
        fs := (q: Path) => if dst <= q then g(src + q[|dst|..]) else g(q);
        assert src + dst[|dst|..] == src;
      } else if fault.Fails? && g(dst) == None {
        Spoil(dst, fault.debris);
      }
    }

    /** `os.replace`: moves a file over a file, or a directory to a free path, in one step. */
    method Replace(src: Path, dst: Path) returns (ok: bool)
      requires Unrelated(src, dst)
      modifies this
      ensures ok ==> old(fs)(src).Some? && SameTree(fs, dst, old(fs), src) && Gone(fs, src)
      ensures ok ==> forall q | !(dst <= q) && !(src <= q) :: fs(q) == old(fs)(q)
      ensures !ok ==> fs == old(fs)
      ensures old(Healthy()) ==> Healthy()
      ensures (old(Healthy()) && old(fs)(Parent(dst)) == Some(Dir)
               && CanMove(old(fs)(src), old(fs)(dst))) ==> ok
    {
      var fault := Decide();
      var g := fs;
      ok := fault.Works? && CanMove(g(src), g(dst)) && g(Parent(dst)) == Some(Dir);
      if ok {
        fs := (q: Path) => if dst <= q then g(src + q[|dst|..]) else if src <= q then None else g(q);
        forall q | src <= q
          ensures fs(q) == None
        {
          if dst <= q {
            ComparablePrefixes(src, dst, q);
          }
        }
      }
    }

    /** `_remove_path`: nothing to do when nothing is there. A failing removal may stop half-way. */
    method RemovePath(p: Path) returns (ok: bool)
      requires Rooted(fs, p)
      modifies this
      ensures OnlyAt(old(fs), fs, p) && Rooted(fs, p)
      ensures ok ==> Gone(fs, p)
      ensures old(Healthy()) ==> Healthy() && ok
    {
      if fs(p) == None {
        return true;
      }
      var fault := Decide();
      ok := fault.Works?;
      if ok {
        var g := fs;
        fs := (q: Path) => if p <= q then None else g(q);
      } else {
        Spoil(p, fault.debris);
      }
    }
  }
}
