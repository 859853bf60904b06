/** Hash-linked logs: every record names the digest of the record before it.
    The live event chain and the audit log are both instances. */
module HashChain {
  /** How records of one log are encoded, hashed and linked. */
  datatype Log<!T(!new), !D(!new)> = Log(zero: D, digest: T -> D, previous: T -> D)

  function Head<T(!new), D(!new)>(log: Log<T, D>, xs: seq<T>): D {
    if xs == [] then log.zero else log.digest(xs[|xs| - 1])
  }

  ghost predicate Linked<T(!new), D(!new)>(log: Log<T, D>, xs: seq<T>) {
    forall i | 0 <= i < |xs| :: log.previous(xs[i]) == Head(log, xs[..i])
  }

  /** Two different records, one in each log, with one digest; or a record whose digest is the genesis value. */
  ghost predicate Collision<T(!new), D(!new)>(log: Log<T, D>, xs: seq<T>, ys: seq<T>) {
    || (exists x, y | x in xs && y in ys :: x != y && log.digest(x) == log.digest(y))
    || (exists x | x in xs + ys :: log.digest(x) == log.zero)
  }

  lemma CollisionInPrefixes<T(!new), D(!new)>(log: Log<T, D>, xs: seq<T>, m: nat, ys: seq<T>, n: nat)
    requires m <= |xs| && n <= |ys| && Collision(log, xs[..m], ys[..n])
    ensures Collision(log, xs, ys)
  {
    if x :| x in xs[..m] + ys[..n] && log.digest(x) == log.zero {
      assert x in xs + ys;
    }
  }

  /** The head commits the whole history: equal heads mean equal logs, record for record and in
      length, unless the logs themselves exhibit a collision. */
  lemma {:induction false} HeadCommitsHistory<T(!new), D(!new)>(log: Log<T, D>, xs: seq<T>, ys: seq<T>)
    requires Linked(log, xs) && Linked(log, ys)
    requires Head(log, xs) == Head(log, ys)
    ensures xs == ys || Collision(log, xs, ys)
  {
    if xs == [] && ys == [] {
    } else if xs == [] {
      assert ys[|ys| - 1] in xs + ys;
    } else if ys == [] {
      assert xs[|xs| - 1] in xs + ys;
    } else {
      var m, n := |xs| - 1, |ys| - 1;
      var x, y := xs[m], ys[n];
      assert x in xs && y in ys;
      if x == y {
        LinkedPrefix(log, xs, m);
        LinkedPrefix(log, ys, n);
        HeadCommitsHistory(log, xs[..m], ys[..n]);
        if xs[..m] == ys[..n] {
          assert xs == xs[..m] + [x] && ys == ys[..n] + [y];
        } else {
          CollisionInPrefixes(log, xs, m, ys, n);
        }
      }
    }
  }

  lemma LinkedPrefix<T(!new), D(!new)>(log: Log<T, D>, xs: seq<T>, n: nat)
    requires n <= |xs| && Linked(log, xs)
    ensures Linked(log, xs[..n])
  {
    forall i | 0 <= i < n
      ensures log.previous(xs[..n][i]) == Head(log, xs[..n][..i])
    {
      assert xs[..n][..i] == xs[..i];
    }
  }
}
