/** `canonical_json_bytes`: keys sorted at every level, compact separators, UTF-8. */
module Canonical {
  import opened Wrappers
  import opened Text
  import Utf8
  import opened Json
  import opened JsonParser

  // ---------------------------------------------------------------- Python's order on strings

  /** Code-point lexicographic order, the order `sort_keys` uses. */
  predicate Less(a: string, b: string) {
    b != "" && (a == "" || a[0] < b[0] || (a[0] == b[0] && Less(a[1..], b[1..])))
  }

  lemma {:induction false} LessTotal(a: string, b: string)
    ensures Less(a, b) || a == b || Less(b, a)
    ensures !(Less(a, b) && Less(b, a))
    ensures !Less(a, a)
  {
    if a != "" && b != "" && a[0] == b[0] {
      LessTotal(a[1..], b[1..]);
      assert a == [a[0]] + a[1..] && b == [b[0]] + b[1..];
    }
    if a != "" {
      LessIrreflexive(a);
    }
  }

  lemma {:induction false} LessIrreflexive(a: string)
    ensures !Less(a, a)
  {
    if a != "" {
      LessIrreflexive(a[1..]);
    }
  }

  lemma {:induction false} LessTransitive(a: string, b: string, c: string)
    requires Less(a, b) && Less(b, c)
    ensures Less(a, c)
  {
    if a != "" && a[0] == b[0] && b[0] == c[0] {
      LessTransitive(a[1..], b[1..], c[1..]);
    }
  }

  // ---------------------------------------------------------------- sorting the members

  function Insert(m: Member, ms: seq<Member>): (r: seq<Member>)
    ensures |r| == |ms| + 1
  {
    if ms == [] || !Less(ms[0].0, m.0) then [m] + ms
    else [ms[0]] + Insert(m, ms[1..])
  }

  function SortMembers(ms: seq<Member>): (r: seq<Member>)
    ensures |r| == |ms|
  {
    if ms == [] then [] else Insert(ms[0], SortMembers(ms[1..]))
  }

  /** `sort_keys=True` applied to the value and everything inside it. */
  function Normalize(v: Json): Json
    decreases v, 1
  {
    match v
    case JArr(items) => JArr(NormalizeAll(items))
    case JObj(members) => JObj(SortMembers(NormalizeMembers(members)))
    case _ => v
  }

  function NormalizeAll(items: seq<Json>): (r: seq<Json>)
    ensures |r| == |items|
    ensures forall i | 0 <= i < |items| :: r[i] == Normalize(items[i])
    decreases items, 0
  {
    if items == [] then [] else [Normalize(items[0])] + NormalizeAll(items[1..])
  }

  function NormalizeMember(m: Member): Member
    decreases m, 2
  {
    (m.0, Normalize(m.1))
  }

  function NormalizeMembers(members: seq<Member>): (r: seq<Member>)
    ensures |r| == |members|
    ensures forall i | 0 <= i < |members| :: r[i] == NormalizeMember(members[i])
    decreases members, 0
  {
    if members == [] then []
    else [NormalizeMember(members[0])] + NormalizeMembers(members[1..])
  }

  function CanonicalText(v: Json): string {
    Print(Normalize(v), Compact)
  }

  function CanonicalBytes(v: Json): bytes {
    Utf8.Encode(CanonicalText(v))
  }

  // ---------------------------------------------------------------- what the bytes determine

  /** The value read back from canonical bytes is the value with its keys sorted. */
  lemma ReadBack(v: Json)
    ensures Utf8.Decode(CanonicalBytes(v)) == Some(CanonicalText(v))
    ensures Loads(CanonicalText(v)) == Some(Normalize(v))
  {
    Utf8.RoundTrip(CanonicalText(v));
    LoadsUndoesPrint(Normalize(v), Compact);
  }

  lemma SameBytesSameNormal(v: Json, w: Json)
    ensures CanonicalBytes(v) == CanonicalBytes(w) <==> Normalize(v) == Normalize(w)
  {
    ReadBack(v);
    ReadBack(w);
  }

  /** What a dictionary guarantees: no key twice, at any depth. */
  predicate UniqueKeys(v: Json)
    decreases v
  {
    match v
    case JArr(items) => forall i | 0 <= i < |items| :: UniqueKeys(items[i])
    case JObj(members) =>
      && (forall i, j | 0 <= i < j < |members| :: members[i].0 != members[j].0)
      && (forall i | 0 <= i < |members| :: UniqueKeys(members[i].1))
    case _ => true
  }

  /** Python's `==` on JSON values: dictionaries are compared by key, whatever their insertion order. */
  ghost predicate Same(v: Json, w: Json)
    decreases v
  {
    match v
    case JArr(items) =>
      w.JArr? && |items| == |w.items| && forall i | 0 <= i < |items| :: Same(items[i], w.items[i])
    case JObj(members) =>
      && w.JObj?
      && (forall m | m in members :: exists n | n in w.members :: SameMember(m, n))
      && (forall n | n in w.members :: exists m | m in members :: SameMember(m, n))
    case _ => v == w
  }

  ghost predicate SameMember(m: Member, n: Member)
    decreases m
  {
    m.0 == n.0 && Same(m.1, n.1)
  }

  // ---------------------------------------------------------------- sorted lists of members

  ghost predicate Ascending(ms: seq<Member>) {
    forall i, j | 0 <= i < j < |ms| :: Less(ms[i].0, ms[j].0)
  }

  ghost predicate DistinctKeys(ms: seq<Member>) {
    forall i, j | 0 <= i < j < |ms| :: ms[i].0 != ms[j].0
  }

  lemma {:induction false} InsertContents(m: Member, ms: seq<Member>)
    ensures forall x :: x in Insert(m, ms) <==> x == m || x in ms
  {
    if ms != [] && Less(ms[0].0, m.0) {
      InsertContents(m, ms[1..]);
      assert ms == [ms[0]] + ms[1..];
    }
  }

  lemma {:induction false} SortContents(ms: seq<Member>)
    ensures forall x :: x in SortMembers(ms) <==> x in ms
  {
    if ms != [] {
      SortContents(ms[1..]);
      InsertContents(ms[0], SortMembers(ms[1..]));
      assert ms == [ms[0]] + ms[1..];
    }
  }

  lemma {:induction false} InsertAscends(m: Member, ms: seq<Member>)
    requires Ascending(ms) && forall i | 0 <= i < |ms| :: ms[i].0 != m.0
    ensures Ascending(Insert(m, ms))
  {
    if ms == [] || !Less(ms[0].0, m.0) {
      if ms != [] {
        LessTotal(ms[0].0, m.0);
        forall j | 0 < j < |ms|
          ensures Less(m.0, ms[j].0)
        {
          LessTransitive(m.0, ms[0].0, ms[j].0);
        }
      }
    } else {
      var rest := Insert(m, ms[1..]);
      InsertAscends(m, ms[1..]);
      InsertContents(m, ms[1..]);
      forall j | 0 <= j < |rest|
        ensures Less(ms[0].0, rest[j].0)
      {
        assert rest[j] in rest;
      }
    }
  }

  lemma {:induction false} SortAscends(ms: seq<Member>)
    requires DistinctKeys(ms)
    ensures Ascending(SortMembers(ms))
  {
    if ms != [] {
      var rest := SortMembers(ms[1..]);
      SortAscends(ms[1..]);
      SortContents(ms[1..]);
      forall i | 0 <= i < |rest|
        ensures rest[i].0 != ms[0].0
      {
        assert rest[i] in rest;
        var j :| 0 <= j < |ms[1..]| && ms[1..][j] == rest[i];
        assert ms[j + 1] == rest[i];
      }
      InsertAscends(ms[0], rest);
    }
  }

  /** An ascending list is determined by its set of members. */
  lemma {:induction false} AscendingUnique(a: seq<Member>, b: seq<Member>)
    requires Ascending(a) && Ascending(b)
    requires forall x :: x in a <==> x in b
    ensures a == b
  {
    assert a != [] ==> a[0] in a;
    assert b != [] ==> b[0] in b;
    if a != [] {
      assert b[0] in a;
      LessTotal(a[0].0, b[0].0);
      assert a[0] == b[0];
      forall x
        ensures x in a[1..] <==> x in b[1..]
      {
        LessIrreflexive(a[0].0);
        assert x in a <==> x == a[0] || x in a[1..];
        assert x in b <==> x == b[0] || x in b[1..];
        assert a[0] !in a[1..] && b[0] !in b[1..];
      }
      AscendingUnique(a[1..], b[1..]);
    }
  }

  // ---------------------------------------------------------------- bytes decide equality, both ways

  lemma {:induction false} SameNormalizes(v: Json, w: Json)
    requires UniqueKeys(v) && UniqueKeys(w) && Same(v, w)
    ensures Normalize(v) == Normalize(w)
    decreases v, 1
  {
    match v {
      case JArr(items) =>
        forall i | 0 <= i < |items|
          ensures Normalize(items[i]) == Normalize(w.items[i])
        {
          SameNormalizes(items[i], w.items[i]);
        }
        assert NormalizeAll(items) == NormalizeAll(w.items);
      case JObj(members) =>
        SameObjectsNormalize(v, w);
      case _ =>
    }
  }

  lemma {:induction false} SameMembersNormalize(m: Member, n: Member)
    requires UniqueKeys(m.1) && UniqueKeys(n.1) && SameMember(m, n)
    ensures NormalizeMember(m) == NormalizeMember(n)
    decreases m, 2
  {
    SameNormalizes(m.1, n.1);
  }

  ghost predicate AllUnique(ms: seq<Member>) {
    forall m | m in ms :: UniqueKeys(m.1)
  }

  lemma NormalizedMember(ms: seq<Member>, m: Member)
    requires m in ms
    ensures NormalizeMember(m) in NormalizeMembers(ms)
  {
    var i :| 0 <= i < |ms| && ms[i] == m;
    assert NormalizeMembers(ms)[i] == NormalizeMember(m);
  }

  lemma {:induction false} SameForward(a: seq<Member>, b: seq<Member>)
    requires AllUnique(a) && AllUnique(b)
    requires forall m | m in a :: exists n | n in b :: SameMember(m, n)
    ensures forall x | x in NormalizeMembers(a) :: x in NormalizeMembers(b)
    decreases a, 0
  {
    forall x | x in NormalizeMembers(a)
      ensures x in NormalizeMembers(b)
    {
      var i :| 0 <= i < |a| && NormalizeMembers(a)[i] == x;
      var m := a[i];
      assert m in a;
      var n :| n in b && SameMember(m, n);
      SameMembersNormalize(m, n);
      NormalizedMember(b, n);
    }
  }

  lemma {:induction false} SameBackward(a: seq<Member>, b: seq<Member>)
    requires AllUnique(a) && AllUnique(b)
    requires forall n | n in b :: exists m | m in a :: SameMember(m, n)
    ensures forall x | x in NormalizeMembers(b) :: x in NormalizeMembers(a)
    decreases a, 0
  {
    forall x | x in NormalizeMembers(b)
      ensures x in NormalizeMembers(a)
    {
      var j :| 0 <= j < |b| && NormalizeMembers(b)[j] == x;
      var n := b[j];
      assert n in b;
      var m :| m in a && SameMember(m, n);
      SameMembersNormalize(m, n);
      NormalizedMember(a, m);
    }
  }

  lemma SameObjectParts(v: Json, w: Json)
    requires v.JObj? && Same(v, w)
    ensures w.JObj?
    ensures forall m | m in v.members :: exists n | n in w.members :: SameMember(m, n)
    ensures forall n | n in w.members :: exists m | m in v.members :: SameMember(m, n)
  {
  }

  lemma UniqueParts(ms: seq<Member>)
    requires UniqueKeys(JObj(ms))
    ensures AllUnique(ms) && DistinctKeys(ms)
  {
    forall m | m in ms
      ensures UniqueKeys(m.1)
    {
      var i :| 0 <= i < |ms| && ms[i] == m;
    }
  }

  lemma NormalKeysDistinct(ms: seq<Member>)
    requires DistinctKeys(ms)
    ensures DistinctKeys(NormalizeMembers(ms))
  {
  }

  lemma {:induction false} SameObjectsNormalize(v: Json, w: Json)
    requires v.JObj? && UniqueKeys(v) && UniqueKeys(w) && Same(v, w)
    ensures Normalize(v) == Normalize(w)
    decreases v, 0
  {
    SameObjectParts(v, w);
    var a, b := v.members, w.members;
    UniqueParts(a);
    UniqueParts(b);
    SameForward(a, b);
    SameBackward(a, b);
    NormalKeysDistinct(a);
    NormalKeysDistinct(b);
    SortsAgree(NormalizeMembers(a), NormalizeMembers(b));
  }

  /** Sorting forgets everything but the set of members. */
  lemma SortsAgree(a: seq<Member>, b: seq<Member>)
    requires DistinctKeys(a) && DistinctKeys(b)
    requires forall x :: x in a <==> x in b
    ensures SortMembers(a) == SortMembers(b)
  {
    SortAscends(a);
    SortAscends(b);
    SortContents(a);
    SortContents(b);
    AscendingUnique(SortMembers(a), SortMembers(b));
  }

  lemma {:induction false} NormalSame(v: Json, w: Json)
    requires Normalize(v) == Normalize(w)
    ensures Same(v, w)
    decreases v, 1
  {
    match v {
      case JArr(items) =>
        assert NormalizeAll(items) == NormalizeAll(w.items);
        forall i | 0 <= i < |items|
          ensures Same(items[i], w.items[i])
        {
          assert NormalizeAll(items)[i] == NormalizeAll(w.items)[i];
          NormalSame(items[i], w.items[i]);
        }
      case JObj(members) =>
        NormalSameObjects(v, w);
      case _ =>
    }
  }

  lemma {:induction false} NormalSameMember(m: Member, n: Member)
    requires NormalizeMember(m) == NormalizeMember(n)
    ensures SameMember(m, n)
    decreases m, 2
  {
    NormalSame(m.1, n.1);
  }

  lemma {:induction false} NormalSameObjects(v: Json, w: Json)
    requires v.JObj? && Normalize(v) == Normalize(w)
    ensures Same(v, w)
    decreases v, 0
  {
    var a, b := NormalizeMembers(v.members), NormalizeMembers(w.members);
    SortContents(a);
    SortContents(b);
    forall m | m in v.members
      ensures exists n | n in w.members :: SameMember(m, n)
    {
      var i :| 0 <= i < |v.members| && v.members[i] == m;
      assert a[i] in b;
      var j :| 0 <= j < |b| && b[j] == a[i];
      NormalSameMember(m, w.members[j]);
      assert w.members[j] in w.members;
    }
    forall n | n in w.members
      ensures exists m | m in v.members :: SameMember(m, n)
    {
      var j :| 0 <= j < |w.members| && w.members[j] == n;
      assert b[j] in a;
      var i :| 0 <= i < |a| && a[i] == b[j];
      NormalSameMember(v.members[i], n);
      assert v.members[i] in v.members;
    }
  }

  /** Canonical bytes are equal exactly when the values are: the encoding is injective, and
      neither insertion order nor anything else about a dictionary leaks into it. */
  lemma CanonicalDecidesEquality(v: Json, w: Json)
    requires UniqueKeys(v) && UniqueKeys(w)
    ensures CanonicalBytes(v) == CanonicalBytes(w) <==> Same(v, w)
  {
    SameBytesSameNormal(v, w);
    if Same(v, w) {
      SameNormalizes(v, w);
    }
    if Normalize(v) == Normalize(w) {
      NormalSame(v, w);
    }
  }

  // ---------------------------------------------------------------- records: objects with a fixed list of keys

  ghost predicate SameKeys(a: seq<Member>, b: seq<Member>) {
    |a| == |b| && forall i | 0 <= i < |a| :: a[i].0 == b[i].0
  }

  lemma {:induction false} InsertSameKeys(m: Member, a: seq<Member>, n: Member, b: seq<Member>)
    requires m.0 == n.0 && SameKeys(a, b)
    ensures SameKeys(Insert(m, a), Insert(n, b))
    ensures Insert(m, a) == Insert(n, b) ==> m == n && a == b
  {
    if a != [] && Less(a[0].0, m.0) {
      InsertSameKeys(m, a[1..], n, b[1..]);
      assert a == [a[0]] + a[1..] && b == [b[0]] + b[1..];
      assert Insert(m, a)[1..] == Insert(m, a[1..]) && Insert(n, b)[1..] == Insert(n, b[1..]);
      assert Insert(m, a)[0] == a[0] && Insert(n, b)[0] == b[0];
    } else {
      assert Insert(m, a)[1..] == a && Insert(n, b)[1..] == b;
      assert Insert(m, a)[0] == m && Insert(n, b)[0] == n;
    }
  }

  lemma {:induction false} SortSameKeys(a: seq<Member>, b: seq<Member>)
    requires SameKeys(a, b)
    ensures SameKeys(SortMembers(a), SortMembers(b))
    ensures SortMembers(a) == SortMembers(b) ==> a == b
  {
    if a != [] {
      SortSameKeys(a[1..], b[1..]);
      InsertSameKeys(a[0], SortMembers(a[1..]), b[0], SortMembers(b[1..]));
      assert a == [a[0]] + a[1..] && b == [b[0]] + b[1..];
    }
  }

  /** Two records with the same keys and the same normal form agree member by member. */
  lemma RecordInjective(a: seq<Member>, b: seq<Member>)
    requires SameKeys(a, b) && Normalize(JObj(a)) == Normalize(JObj(b))
    ensures forall i | 0 <= i < |a| :: Normalize(a[i].1) == Normalize(b[i].1)
  {
    var x, y := NormalizeMembers(a), NormalizeMembers(b);
    SortSameKeys(x, y);
    forall i | 0 <= i < |a|
      ensures Normalize(a[i].1) == Normalize(b[i].1)
    {
      assert x[i] == y[i];
    }
  }
}
