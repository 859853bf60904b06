/** `AuditLog` and `verify_audit_log`: an append-only file of records, each naming the hash of the one before. */
module AuditLog {
  import opened Wrappers
  import opened Text
  import opened Json
  import opened JsonParser
  import opened Canonical
  import opened Hashing
  import opened ReceiptText
  import HashChain

  // ----- Dictionaries -----

  /** `d[key] = value`: an existing key keeps its place. */
  function SetKey(ms: seq<Member>, key: string, value: Json): seq<Member> {
    if ms == [] then [(key, value)]
    else if ms[0].0 == key then [(key, value)] + ms[1..]
    else [ms[0]] + SetKey(ms[1..], key, value)
  }

  /** `{**base, **more}`. */
  function Spread(base: seq<Member>, more: seq<Member>): seq<Member>
    decreases more
  {
    if more == [] then base else Spread(SetKey(base, more[0].0, more[0].1), more[1..])
  }

  function RemoveKey(ms: seq<Member>, key: string): seq<Member> {
    if ms == [] then [] else (if ms[0].0 == key then [] else [ms[0]]) + RemoveKey(ms[1..], key)
  }

  /** What `json.loads` makes of an object that repeats a key: the last value counts. */
  function AsDict(v: Json): Json
    decreases v, 1
  {
    match v
    case JArr(items) => JArr(AllAsDict(items))
    case JObj(members) => JObj(Spread([], MembersAsDict(members)))
    case _ => v
  }

  function AllAsDict(items: seq<Json>): (r: seq<Json>)
    ensures |r| == |items| && forall i | 0 <= i < |r| :: r[i] == AsDict(items[i])
    decreases items, 0
  {
    if items == [] then [] else [AsDict(items[0])] + AllAsDict(items[1..])
  }

  function MembersAsDict(ms: seq<Member>): (r: seq<Member>)
    ensures |r| == |ms| && forall i | 0 <= i < |r| :: r[i] == MemberAsDict(ms[i])
    decreases ms, 0
  {
    if ms == [] then [] else [MemberAsDict(ms[0])] + MembersAsDict(ms[1..])
  }

  function MemberAsDict(m: Member): Member
    decreases m, 2
  {
    (m.0, AsDict(m.1))
  }

  predicate HasKey(ms: seq<Member>, key: string) {
    exists i | 0 <= i < |ms| :: ms[i].0 == key
  }

  lemma {:induction false} SetKeyContents(ms: seq<Member>, key: string, value: Json)
    requires DistinctKeys(ms)
    ensures DistinctKeys(SetKey(ms, key, value))
    ensures forall m :: m in SetKey(ms, key, value) <==> m == (key, value) || (m in ms && m.0 != key)
    ensures !HasKey(ms, key) ==> SetKey(ms, key, value) == ms + [(key, value)]
  {
    if ms != [] {
      assert ms == [ms[0]] + ms[1..];
      var r := SetKey(ms, key, value);
      if ms[0].0 == key {
        assert forall i | 0 < i < |ms| :: ms[i].0 != key;
        assert forall m | m in ms[1..] :: m.0 != key;
      } else {
        SetKeyContents(ms[1..], key, value);
        assert r == [ms[0]] + SetKey(ms[1..], key, value);
        forall i, j | 0 <= i < j < |r|
          ensures r[i].0 != r[j].0
        {
          if i == 0 {
            assert r[j] in SetKey(ms[1..], key, value);
            assert r[j] == (key, value) || r[j] in ms[1..];
          }
        }
        assert HasKey(ms[1..], key) ==> HasKey(ms, key);
      }
    }
  }

  lemma {:induction false} SpreadDistinct(base: seq<Member>, more: seq<Member>)
    requires DistinctKeys(base)
    ensures DistinctKeys(Spread(base, more))
    decreases more
  {
    if more != [] {
      SetKeyContents(base, more[0].0, more[0].1);
      SpreadDistinct(SetKey(base, more[0].0, more[0].1), more[1..]);
    }
  }

  /** A key of the first dictionary keeps its value unless the second has it too; `more` repeats no key. */
  lemma {:induction false} SpreadLookup(base: seq<Member>, more: seq<Member>, key: string)
    requires DistinctKeys(base) && DistinctKeys(more)
    ensures Lookup(Spread(base, more), key) == if Lookup(more, key).Some? then Lookup(more, key) else Lookup(base, key)
    decreases more
  {
    if more != [] {
      var k, v := more[0].0, more[0].1;
      SetKeyContents(base, k, v);
      SpreadLookup(SetKey(base, k, v), more[1..], key);
      SetKeyLookup(base, k, v, key);
      if k == key {
        forall i | 0 <= i < |more[1..]|
          ensures more[1..][i].0 != key
        {
          assert more[i + 1].0 != more[0].0;
        }
        LookupMissing(more[1..], key);
      }
    }
  }

  lemma {:induction false} LookupMissing(ms: seq<Member>, key: string)
    ensures Lookup(ms, key).None? <==> !HasKey(ms, key)
  {
    if ms != [] {
      LookupMissing(ms[1..], key);
      assert HasKey(ms[1..], key) ==> HasKey(ms, key);
      if HasKey(ms, key) && ms[0].0 != key {
        var i :| 0 <= i < |ms| && ms[i].0 == key;
        assert ms[1..][i - 1].0 == key;
      }
    }
  }

  lemma {:induction false} SetKeyLookup(ms: seq<Member>, k: string, v: Json, key: string)
    ensures Lookup(SetKey(ms, k, v), key) == if key == k then Some(v) else Lookup(ms, key)
  {
    if ms != [] && ms[0].0 != k {
      SetKeyLookup(ms[1..], k, v, key);
    }
  }

  /** A dictionary is what it already is. */
  lemma {:induction false} SpreadOntoItself(base: seq<Member>, more: seq<Member>)
    requires DistinctKeys(base + more)
    ensures Spread(base, more) == base + more
    decreases more
  {
    if more == [] {
      assert base + more == base;
    } else {
      var k, v := more[0].0, more[0].1;
      assert (base + more)[|base|] == more[0];
      forall i | 0 <= i < |base|
        ensures base[i].0 != k
      {
        assert (base + more)[i] == base[i];
      }
      forall i, j | 0 <= i < j < |base|
        ensures base[i].0 != base[j].0
      {
        assert (base + more)[i] == base[i] && (base + more)[j] == base[j];
      }
      SetKeyContents(base, k, v);
      assert base + [(k, v)] + more[1..] == base + more;
      SpreadOntoItself(base + [(k, v)], more[1..]);
    }
  }

  lemma {:induction false} AsDictOfUnique(v: Json)
    requires UniqueKeys(v)
    ensures AsDict(v) == v
    decreases v
  {
    match v
    case JArr(items) =>
      forall i | 0 <= i < |items|
        ensures AllAsDict(items)[i] == items[i]
      {
        AsDictOfUnique(items[i]);
      }
    case JObj(members) =>
      forall i | 0 <= i < |members|
        ensures MembersAsDict(members)[i] == members[i]
      {
        AsDictOfUnique(members[i].1);
      }
      assert MembersAsDict(members) == members;
      assert [] + members == members;
      SpreadOntoItself([], members);
    case _ =>
  }

  lemma {:induction false} AsDictUnique(v: Json)
    ensures UniqueKeys(AsDict(v))
    decreases v
  {
    match v
    case JArr(items) =>
      forall i | 0 <= i < |items|
        ensures UniqueKeys(AllAsDict(items)[i])
      {
        AsDictUnique(items[i]);
      }
    case JObj(members) =>
      var ds := MembersAsDict(members);
      SpreadDistinct([], ds);
      forall i | 0 <= i < |ds|
        ensures UniqueKeys(ds[i].1)
      {
        AsDictUnique(members[i].1);
      }
      SpreadValues([], ds);
    case _ =>
  }

  ghost predicate ValuesUnique(ms: seq<Member>) {
    forall i | 0 <= i < |ms| :: UniqueKeys(ms[i].1)
  }

  lemma {:induction false} SpreadValues(base: seq<Member>, more: seq<Member>)
    requires DistinctKeys(base) && ValuesUnique(base) && ValuesUnique(more)
    ensures ValuesUnique(Spread(base, more))
    decreases more
  {
    if more != [] {
      var next := SetKey(base, more[0].0, more[0].1);
      SetKeyContents(base, more[0].0, more[0].1);
      forall i | 0 <= i < |next|
        ensures UniqueKeys(next[i].1)
      {
        assert next[i] in next;
      }
      SpreadValues(next, more[1..]);
    }
  }

  lemma {:induction false} RemoveContents(ms: seq<Member>, key: string)
    ensures forall m :: m in RemoveKey(ms, key) <==> m in ms && m.0 != key
  {
    if ms != [] {
      RemoveContents(ms[1..], key);
      assert ms == [ms[0]] + ms[1..];
    }
  }

  lemma {:induction false} RemoveAscends(ms: seq<Member>, key: string)
    requires Ascending(ms)
    ensures Ascending(RemoveKey(ms, key))
  {
    if ms != [] {
      var rest := ms[1..];
      RemoveAscends(rest, key);
      RemoveContents(rest, key);
      var r := RemoveKey(ms, key);
      forall i, j | 0 <= i < j < |r|
        ensures Less(r[i].0, r[j].0)
      {
        if ms[0].0 != key && i == 0 {
          assert r[j] in RemoveKey(rest, key);
          assert r[j] in rest;
          var k :| 0 <= k < |rest| && rest[k] == r[j];
          assert ms[k + 1] == r[j];
        }
      }
    }
  }

  /** Reading a record back and taking its hash out leaves what was hashed. */
  lemma ViewOfWritten(ms: seq<Member>, key: string, value: Json)
    requires UniqueKeys(JObj(ms)) && !HasKey(ms, key)
    ensures (JObj(RemoveKey(SortMembers(NormalizeMembers(ms + [(key, value)])), key)) == Normalize(JObj(ms)))
  {
    var a, b := NormalizeMembers(ms + [(key, value)]), NormalizeMembers(ms);
    assert a == b + [NormalizeMember((key, value))] by {
      forall i | 0 <= i < |a|
        ensures a[i] == (b + [NormalizeMember((key, value))])[i]
      {
        assert i < |ms| ==> (ms + [(key, value)])[i] == ms[i];
      }
    }
    forall i, j | 0 <= i < j < |a|
      ensures a[i].0 != a[j].0
    {
      assert j == |ms| ==> ms[i].0 != key;
    }
    SortAscends(a);
    SortAscends(b);
    SortContents(a);
    SortContents(b);
    RemoveAscends(SortMembers(a), key);
    RemoveContents(SortMembers(a), key);
    forall i | 0 <= i < |b|
      ensures b[i].0 != key
    {
      assert ms[i].0 != key;
    }
    AscendingUnique(RemoveKey(SortMembers(a), key), SortMembers(b));
  }

  // ----- Verifying -----

  const PREVIOUS := "previous_record_hash"
  const RECORD_HASH := "record_hash"

  function Genesis(): string {
    "sha256:" + seq(64, _ => '0')
  }

  function Digest(h: Hashes, v: Json): string {
    h.Sha256Prefixed(CanonicalBytes(v))
  }

  /** The dictionary on a line of the file. */
  function RecordOf(line: string): Option<seq<Member>> {
    match Loads(line)
    case None => None
    case Some(v) => if AsDict(v).JObj? then Some(AsDict(v).members) else None
  }

  /** A record without its own hash: what the hash is taken of. */
  function View(ms: seq<Member>): Json {
    JObj(RemoveKey(ms, RECORD_HASH))
  }

  predicate LineOk(h: Hashes, line: string, previous: string) {
    && RecordOf(line).Some?
    && Lookup(RecordOf(line).value, PREVIOUS) == Some(JStr(previous))
    && Lookup(RecordOf(line).value, RECORD_HASH) == Some(JStr(Digest(h, View(RecordOf(line).value))))
  }

  function NextPrevious(h: Hashes, line: string): string {
    match RecordOf(line)
    case Some(ms) => Digest(h, View(ms))
    case None => ""
  }

  /** A log by its lines: which line may follow a head, and which head it makes. */
  datatype LineFormat = LineFormat(ok: (string, string) -> bool, next: string -> string)

  function AuditFormat(h: Hashes): LineFormat {
    LineFormat((line: string, previous: string) => LineOk(h, line, previous), (line: string) => NextPrevious(h, line))
  }

  /** The hash of the last record, which the next one must name. */
  function HeadOf(f: LineFormat, lines: seq<string>): string {
    if lines == [] then Genesis() else f.next(lines[|lines| - 1])
  }

  predicate Verifies(f: LineFormat, lines: seq<string>) {
    forall i | 0 <= i < |lines| :: f.ok(lines[i], HeadOf(f, lines[..i]))
  }

  datatype AuditError = Invalid(line: nat) | ChainBroken(line: nat) | HashMismatch(line: nat)

  /** One more line verifies exactly when it is right after the lines before it. */
  lemma VerifiesOn(f: LineFormat, lines: seq<string>, n: nat)
    requires n < |lines| && Verifies(f, lines[..n])
    ensures Verifies(f, lines[..n + 1]) <==> f.ok(lines[n], HeadOf(f, lines[..n]))
    ensures !f.ok(lines[n], HeadOf(f, lines[..n])) ==> !Verifies(f, lines)
  {
    var more := lines[..n + 1];
    assert more[n] == lines[n] && more[..n] == lines[..n];
    forall i | 0 <= i < n
      ensures f.ok(more[i], HeadOf(f, more[..i]))
    {
      assert more[i] == lines[..n][i] && more[..i] == lines[..n][..i];
    }
  }

  /** The three checks of one line. */
  method CheckLine(h: Hashes, line: string, n: nat, previous: string) returns (r: Result<string, AuditError>)
    ensures r.Ok? <==> AuditFormat(h).ok(line, previous)
    ensures r.Ok? ==> r.value == AuditFormat(h).next(line)
    ensures r.Err? ==> r.error.line == n
  {
    var record := RecordOf(line);
    if record.None? {
      return Err(Invalid(n));
    }
    if Lookup(record.value, PREVIOUS) != Some(JStr(previous)) {
      return Err(ChainBroken(n));
    }
    var expected := Digest(h, View(record.value));
    if Lookup(record.value, RECORD_HASH) != Some(JStr(expected)) {
      return Err(HashMismatch(n));
    }
    r := Ok(expected);
  }

  /** `verify_audit_log` on the lines of the file. */
  method VerifyAuditLog(h: Hashes, lines: seq<string>) returns (r: Result<(nat, string), AuditError>)
    ensures r.Ok? <==> Verifies(AuditFormat(h), lines)
    ensures r.Ok? ==> r.value == (|lines|, HeadOf(AuditFormat(h), lines))
    ensures r.Err? ==> r.error.line < |lines| && Verifies(AuditFormat(h), lines[..r.error.line])
  {
    var f := AuditFormat(h);
    var previous := Genesis();
    for count := 0 to |lines|
      invariant previous == HeadOf(f, lines[..count]) && Verifies(f, lines[..count])
    {
      VerifiesOn(f, lines, count);
      var checked := CheckLine(h, lines[count], count, previous);
      if checked.Err? {
        return Err(checked.error);
      }
      previous := checked.value;
    }
    assert lines[..|lines|] == lines;
    r := Ok((|lines|, previous));
  }

  // ----- The head determines the records -----

  /** The records of a file as values: key order and spacing do not matter. */
  function ViewOf(line: string): Json {
    match RecordOf(line)
    case Some(ms) => Normalize(View(ms))
    case None => JNull
  }

  function Views(lines: seq<string>): seq<Json> {
    seq(|lines|, i requires 0 <= i < |lines| => ViewOf(lines[i]))
  }

  function PreviousOf(v: Json): string {
    match Field(v, PREVIOUS)
    case Some(JStr(s)) => s
    case _ => ""
  }

  function Chain(h: Hashes): HashChain.Log<Json, string> {
    HashChain.Log(Genesis(), (v: Json) => Digest(h, v), (v: Json) => PreviousOf(v))
  }

  lemma RecordUnique(line: string)
    requires RecordOf(line).Some?
    ensures UniqueKeys(JObj(RecordOf(line).value)) && UniqueKeys(View(RecordOf(line).value))
  {
    AsDictUnique(Loads(line).value);
    RemoveUnique(RecordOf(line).value, RECORD_HASH);
  }

  lemma {:induction false} RemoveUnique(ms: seq<Member>, key: string)
    requires UniqueKeys(JObj(ms))
    ensures UniqueKeys(JObj(RemoveKey(ms, key)))
    decreases ms
  {
    if ms != [] {
      var rest := ms[1..];
      assert forall i | 0 <= i < |rest| :: rest[i] == ms[i + 1];
      RemoveUnique(rest, key);
      RemoveContents(rest, key);
      var r := RemoveKey(ms, key);
      forall i, j | 0 <= i < j < |r|
        ensures r[i].0 != r[j].0
      {
        if ms[0].0 != key && i == 0 {
          assert r[j] in RemoveKey(rest, key) && r[j] in rest;
          var k :| 0 <= k < |rest| && rest[k] == r[j];
          assert ms[k + 1] == r[j];
        }
      }
    }
  }

  lemma {:induction false} RemoveLookup(ms: seq<Member>, key: string, other: string)
    requires key != other
    ensures Lookup(RemoveKey(ms, key), other) == Lookup(ms, other)
  {
    if ms != [] {
      RemoveLookup(ms[1..], key, other);
      var rest := RemoveKey(ms[1..], key);
      assert ([ms[0]] + rest)[1..] == rest && [] + rest == rest;
    }
  }

  lemma ViewFacts(h: Hashes, line: string)
    requires RecordOf(line).Some?
    ensures Digest(h, ViewOf(line)) == Digest(h, View(RecordOf(line).value))
    ensures forall p :: Lookup(RecordOf(line).value, PREVIOUS) == Some(JStr(p)) ==> PreviousOf(ViewOf(line)) == p
  {
    RecordUnique(line);
    var ms := RecordOf(line).value;
    NormalizeTwice(View(ms));
    FieldOfNormal(View(ms), PREVIOUS);
    RemoveLookup(ms, RECORD_HASH, PREVIOUS);
  }

  lemma HeadsMatch(h: Hashes, lines: seq<string>, i: nat)
    requires Verifies(AuditFormat(h), lines) && i <= |lines|
    ensures HashChain.Head(Chain(h), Views(lines)[..i]) == HeadOf(AuditFormat(h), lines[..i])
  {
    if i > 0 {
      assert AuditFormat(h).ok(lines[i - 1], HeadOf(AuditFormat(h), lines[..i - 1]));
      ViewFacts(h, lines[i - 1]);
    }
  }

  lemma LinkMatches(h: Hashes, lines: seq<string>, i: nat)
    requires Verifies(AuditFormat(h), lines) && i < |lines|
    ensures PreviousOf(Views(lines)[i]) == HeadOf(AuditFormat(h), lines[..i])
  {
    assert AuditFormat(h).ok(lines[i], HeadOf(AuditFormat(h), lines[..i]));
    ViewFacts(h, lines[i]);
  }

  lemma VerifiedIsLinked(h: Hashes, lines: seq<string>)
    requires Verifies(AuditFormat(h), lines)
    ensures HashChain.Linked(Chain(h), Views(lines))
    ensures HashChain.Head(Chain(h), Views(lines)) == HeadOf(AuditFormat(h), lines)
  {
    forall i | 0 <= i < |lines|
      ensures Chain(h).previous(Views(lines)[i]) == HashChain.Head(Chain(h), Views(lines)[..i])
    {
      HeadsMatch(h, lines, i);
      LinkMatches(h, lines, i);
    }
    HeadsMatch(h, lines, |lines|);
    assert Views(lines)[..|lines|] == Views(lines) && lines[..|lines|] == lines;
  }

  /** Two different records with one SHA-256 text, or a record that hashes to the genesis value. */
  ghost predicate ShaCollision(h: Hashes, xs: seq<Json>, ys: seq<Json>) {
    || (exists x, y | x in xs && y in ys ::
          CanonicalBytes(x) != CanonicalBytes(y)
            && h.Sha256Prefixed(CanonicalBytes(x)) == h.Sha256Prefixed(CanonicalBytes(y)))
    || (exists x | x in xs + ys :: h.Sha256Prefixed(CanonicalBytes(x)) == Genesis())
  }

  /** The head returned by `verify_audit_log` determines every record of the file and how many there are,
      unless the two files exhibit a SHA-256 collision. */
  lemma HeadDeterminesRecords(h: Hashes, a: seq<string>, b: seq<string>)
    requires Verifies(AuditFormat(h), a) && Verifies(AuditFormat(h), b)
             && HeadOf(AuditFormat(h), a) == HeadOf(AuditFormat(h), b)
    ensures Views(a) == Views(b) || ShaCollision(h, Views(a), Views(b))
  {
    VerifiedIsLinked(h, a);
    VerifiedIsLinked(h, b);
    HashChain.HeadCommitsHistory(Chain(h), Views(a), Views(b));
    if HashChain.Collision(Chain(h), Views(a), Views(b)) {
      CollisionIsSha(h, a, b);
    }
  }

  lemma CollisionIsSha(h: Hashes, a: seq<string>, b: seq<string>)
    requires Verifies(AuditFormat(h), a) && Verifies(AuditFormat(h), b)
    requires HashChain.Collision(Chain(h), Views(a), Views(b))
    ensures ShaCollision(h, Views(a), Views(b))
  {
    var xs, ys := Views(a), Views(b);
    if x, y :| x in xs && y in ys && x != y && Chain(h).digest(x) == Chain(h).digest(y) {
      PairIsSha(h, a, b, x, y);
    } else {
      var x :| x in xs + ys && Chain(h).digest(x) == Chain(h).zero;
      assert h.Sha256Prefixed(CanonicalBytes(x)) == Genesis();
    }
  }

  lemma PairIsSha(h: Hashes, a: seq<string>, b: seq<string>, x: Json, y: Json)
    requires Verifies(AuditFormat(h), a) && Verifies(AuditFormat(h), b)
    requires x in Views(a) && y in Views(b) && x != y && Digest(h, x) == Digest(h, y)
    ensures CanonicalBytes(x) != CanonicalBytes(y)
            && h.Sha256Prefixed(CanonicalBytes(x)) == h.Sha256Prefixed(CanonicalBytes(y))
  {
    var i :| 0 <= i < |a| && Views(a)[i] == x;
    var j :| 0 <= j < |b| && Views(b)[j] == y;
    DifferentBytes(h, a, i, b, j);
  }

  lemma DifferentBytes(h: Hashes, a: seq<string>, i: nat, b: seq<string>, j: nat)
    requires Verifies(AuditFormat(h), a) && Verifies(AuditFormat(h), b) && i < |a| && j < |b|
    requires ViewOf(a[i]) != ViewOf(b[j])
    ensures CanonicalBytes(ViewOf(a[i])) != CanonicalBytes(ViewOf(b[j]))
  {
    assert AuditFormat(h).ok(a[i], HeadOf(AuditFormat(h), a[..i]));
    assert AuditFormat(h).ok(b[j], HeadOf(AuditFormat(h), b[..j]));
    RecordUnique(a[i]);
    RecordUnique(b[j]);
    NormalizeTwice(View(RecordOf(a[i]).value));
    NormalizeTwice(View(RecordOf(b[j]).value));
    SameBytesSameNormal(ViewOf(a[i]), ViewOf(b[j]));
  }

  // ----- Writing -----

  predicate Secret(key: string) {
    Lower(key) in {"authorization", "token", "write_token"}
  }

  /** The details without credentials. */
  function Safe(details: seq<Member>): seq<Member> {
    if details == [] then []
    else (if Secret(details[0].0) then [] else [details[0]]) + Safe(details[1..])
  }

  /** The record before its hash is added: the details are spread last and may replace the other members. */
  function Unhashed(time: int, runId: string, event: string, previous: string, details: seq<Member>): seq<Member> {
    Spread([("timestamp", JInt(time)), ("run_id", JStr(runId)), ("event", JStr(event)), (PREVIOUS, JStr(previous))],
           Safe(details))
  }

  function Line(h: Hashes, record: seq<Member>): string {
    CanonicalText(JObj(SetKey(record, RECORD_HASH, JStr(Digest(h, JObj(record))))))
  }

  lemma {:induction false} SafeKeeps(details: seq<Member>)
    ensures forall m :: m in Safe(details) <==> m in details && !Secret(m.0)
    ensures DistinctKeys(details) ==> DistinctKeys(Safe(details))
  {
    if details != [] {
      var rest := details[1..];
      assert details == [details[0]] + rest;
      SafeKeeps(rest);
      if DistinctKeys(details) {
        assert DistinctKeys(rest) by {
          forall i, j | 0 <= i < j < |rest|
            ensures rest[i].0 != rest[j].0
          {
            assert details[i + 1].0 != details[j + 1].0;
          }
        }
        var r := Safe(details);
        forall i, j | 0 <= i < j < |r|
          ensures r[i].0 != r[j].0
        {
          if !Secret(details[0].0) && i == 0 {
            assert r[j] in Safe(rest);
            var k :| 0 <= k < |rest| && rest[k] == r[j];
            assert details[k + 1] == r[j];
          }
        }
      }
    }
  }

  /** The dictionary on a written line: the record with its hash, its keys sorted. */
  lemma WrittenRecord(h: Hashes, record: seq<Member>, hash: Json)
    requires UniqueKeys(JObj(record)) && !HasKey(record, RECORD_HASH) && hash == JStr(Digest(h, JObj(record)))
    ensures RecordOf(Line(h, record)) == Some(SortMembers(NormalizeMembers(record + [(RECORD_HASH, hash)])))
    ensures UniqueKeys(JObj(record + [(RECORD_HASH, hash)]))
  {
    var full := record + [(RECORD_HASH, hash)];
    SetKeyContents(record, RECORD_HASH, hash);
    FullUnique(record, RECORD_HASH, hash);
    ReadBack(JObj(full));
    NormalizeKeepsUnique(JObj(full));
    AsDictOfUnique(Normalize(JObj(full)));
  }

  lemma WrittenFields(h: Hashes, record: seq<Member>, hash: Json)
    requires UniqueKeys(JObj(record)) && !HasKey(record, RECORD_HASH)
    requires UniqueKeys(JObj(record + [(RECORD_HASH, hash)])) && hash.JStr?
    ensures Lookup(SortMembers(NormalizeMembers(record + [(RECORD_HASH, hash)])), RECORD_HASH) == Some(hash)
    ensures (Lookup(SortMembers(NormalizeMembers(record + [(RECORD_HASH, hash)])), PREVIOUS)
             == if Lookup(record, PREVIOUS).Some? then Some(Normalize(Lookup(record, PREVIOUS).value)) else None)
  {
    var full := record + [(RECORD_HASH, hash)];
    FieldOfNormal(JObj(full), RECORD_HASH);
    FieldOfNormal(JObj(full), PREVIOUS);
    assert (RECORD_HASH, hash) == full[|record|];
    LookupIsMember(full, RECORD_HASH, hash);
    SetKeyContents(record, RECORD_HASH, hash);
    SetKeyLookup(record, RECORD_HASH, hash, PREVIOUS);
  }

  /** What reading a written line gives back. */
  lemma WrittenBack(h: Hashes, record: seq<Member>)
    requires UniqueKeys(JObj(record)) && !HasKey(record, RECORD_HASH)
    ensures RecordOf(Line(h, record)).Some?
    ensures View(RecordOf(Line(h, record)).value) == Normalize(JObj(record))
    ensures Digest(h, View(RecordOf(Line(h, record)).value)) == Digest(h, JObj(record))
    ensures Lookup(RecordOf(Line(h, record)).value, RECORD_HASH) == Some(JStr(Digest(h, JObj(record))))
    ensures (Lookup(RecordOf(Line(h, record)).value, PREVIOUS)
             == if Lookup(record, PREVIOUS).Some? then Some(Normalize(Lookup(record, PREVIOUS).value)) else None)
  {
    var hash := JStr(Digest(h, JObj(record)));
    WrittenRecord(h, record, hash);
    WrittenFields(h, record, hash);
    ViewOfWritten(record, RECORD_HASH, hash);
    NormalizeTwice(JObj(record));
  }

  lemma FullUnique(record: seq<Member>, key: string, v: Json)
    requires UniqueKeys(JObj(record)) && !HasKey(record, key) && UniqueKeys(v)
    ensures UniqueKeys(JObj(record + [(key, v)])) && DistinctKeys(record + [(key, v)])
  {
    var full := record + [(key, v)];
    forall i, j | 0 <= i < j < |full|
      ensures full[i].0 != full[j].0
    {
      assert j == |record| ==> record[i].0 != key;
    }
  }

  /** The details do not replace the link: they have no such key, or exactly the right value for it. */
  predicate KeepsLink(details: seq<Member>, head: string) {
    var own := Lookup(Safe(details), PREVIOUS);
    own == None || own == Some(JStr(head))
  }

  predicate IsDict(details: seq<Member>) {
    UniqueKeys(JObj(details))
  }

  lemma UnhashedUnique(time: int, runId: string, event: string, previous: string, details: seq<Member>)
    requires IsDict(details) && !HasKey(Safe(details), RECORD_HASH)
    ensures UniqueKeys(JObj(Unhashed(time, runId, event, previous, details)))
    ensures !HasKey(Unhashed(time, runId, event, previous, details), RECORD_HASH)
    ensures (Lookup(Unhashed(time, runId, event, previous, details), PREVIOUS)
             == if Lookup(Safe(details), PREVIOUS).Some? then Lookup(Safe(details), PREVIOUS) else Some(JStr(previous)))
  {
    var base := [("timestamp", JInt(time)), ("run_id", JStr(runId)), ("event", JStr(event)),
                 (PREVIOUS, JStr(previous))];
    var safe := Safe(details);
    SafeKeeps(details);
    forall i | 0 <= i < |safe|
      ensures UniqueKeys(safe[i].1)
    {
      assert safe[i] in details;
      var k :| 0 <= k < |details| && details[k] == safe[i];
    }
    BaseDistinct(base);
    SpreadDistinct(base, safe);
    SpreadValues(base, safe);
    SpreadLookup(base, safe, PREVIOUS);
    SpreadLookup(base, safe, RECORD_HASH);
    LookupMissing(safe, RECORD_HASH);
    LookupMissing(base, RECORD_HASH);
    LookupMissing(Spread(base, safe), RECORD_HASH);
    assert (PREVIOUS, JStr(previous)) == base[3];
    LookupIsMember(base, PREVIOUS, JStr(previous));
  }

  lemma BaseDistinct(base: seq<Member>)
    requires |base| == 4 && base[0].0 == "timestamp" && base[1].0 == "run_id" && base[2].0 == "event"
    requires base[3].0 == PREVIOUS
    ensures DistinctKeys(base) && !HasKey(base, RECORD_HASH)
  {
    assert |"timestamp"| == 9 && |"run_id"| == 6 && |"event"| == 5 && |PREVIOUS| == 20 && |RECORD_HASH| == 11;
  }

  /** A written line follows the head exactly when the details keep the link, and its hash is the next head. */
  lemma WrittenLineOk(h: Hashes, time: int, runId: string, event: string, previous: string, details: seq<Member>)
    requires IsDict(details) && !HasKey(Safe(details), RECORD_HASH)
    ensures (AuditFormat(h).ok(Line(h, Unhashed(time, runId, event, previous, details)), previous)
             <==> KeepsLink(details, previous))
    ensures (AuditFormat(h).next(Line(h, Unhashed(time, runId, event, previous, details)))
             == Digest(h, JObj(Unhashed(time, runId, event, previous, details))))
  {
    UnhashedUnique(time, runId, event, previous, details);
    WrittenBack(h, Unhashed(time, runId, event, previous, details));
  }

  lemma SetKeyUnique(record: seq<Member>, key: string, v: Json)
    requires UniqueKeys(JObj(record)) && UniqueKeys(v)
    ensures UniqueKeys(JObj(SetKey(record, key, v)))
  {
    var full := SetKey(record, key, v);
    SetKeyContents(record, key, v);
    forall i | 0 <= i < |full|
      ensures UniqueKeys(full[i].1)
    {
      assert full[i] in full;
      if full[i] != (key, v) {
        var k :| 0 <= k < |record| && record[k] == full[i];
      }
    }
  }

  /** Reading back a line whose record had a member called `record_hash` before it was hashed. */
  lemma OverwrittenRecord(h: Hashes, record: seq<Member>, full: seq<Member>)
    requires UniqueKeys(JObj(record)) && full == SetKey(record, RECORD_HASH, JStr(Digest(h, JObj(record))))
    ensures UniqueKeys(JObj(full)) && RecordOf(Line(h, record)).Some?
    ensures JObj(RecordOf(Line(h, record)).value) == Normalize(JObj(full))
    ensures Lookup(RecordOf(Line(h, record)).value, RECORD_HASH) == Some(JStr(Digest(h, JObj(record))))
  {
    SetKeyUnique(record, RECORD_HASH, JStr(Digest(h, JObj(record))));
    ReadBack(JObj(full));
    NormalizeKeepsUnique(JObj(full));
    AsDictOfUnique(Normalize(JObj(full)));
    FieldOfNormal(JObj(full), RECORD_HASH);
    SetKeyLookup(record, RECORD_HASH, JStr(Digest(h, JObj(record))), RECORD_HASH);
  }

  lemma {:induction false} RemovedIsMissing(ms: seq<Member>, key: string)
    ensures Lookup(RemoveKey(ms, key), key).None?
  {
    RemoveContents(ms, key);
    LookupFinds(RemoveKey(ms, key), key);
  }

  /** A detail called `record_hash` breaks the log: the record is hashed with it and verified without it, so
      its line can only be accepted when the two texts collide under SHA-256. */
  lemma HashNameBreaks(h: Hashes, record: seq<Member>, previous: string)
    requires UniqueKeys(JObj(record)) && HasKey(record, RECORD_HASH) && LineOk(h, Line(h, record), previous)
    ensures var view := View(RecordOf(Line(h, record)).value);
      CanonicalBytes(view) != CanonicalBytes(JObj(record))
      && h.Sha256Prefixed(CanonicalBytes(view)) == h.Sha256Prefixed(CanonicalBytes(JObj(record)))
  {
    OverwrittenRecord(h, record, SetKey(record, RECORD_HASH, JStr(Digest(h, JObj(record)))));
    var ms := RecordOf(Line(h, record)).value;
    RecordUnique(Line(h, record));
    RemovedIsMissing(ms, RECORD_HASH);
    FieldOfNormal(View(ms), RECORD_HASH);
    FieldOfNormal(JObj(record), RECORD_HASH);
    LookupMissing(record, RECORD_HASH);
    SameBytesSameNormal(View(ms), JObj(record));
  }

  lemma VerifiesAppend(f: LineFormat, lines: seq<string>, line: string)
    requires Verifies(f, lines)
    ensures Verifies(f, lines + [line]) <==> f.ok(line, HeadOf(f, lines))
    ensures HeadOf(f, lines + [line]) == f.next(line)
  {
    var more := lines + [line];
    assert more[..|lines|] == lines && more[..|lines| + 1] == more;
    VerifiesOn(f, more, |lines|);
  }

  /** The log as one process has it open: the file by its lines, and the link for the next record. */
  class AuditFile {
    const h: Hashes
    const runId: string
    var lines: seq<string>
    var previousHash: string

    constructor (h: Hashes, lines: seq<string>, runId: string, previousHash: string)
      ensures this.h == h && this.lines == lines && this.runId == runId && this.previousHash == previousHash
    {
      this.h, this.lines, this.runId, this.previousHash := h, lines, runId, previousHash;
    }

    ghost predicate Valid()
      reads this
    {
      Verifies(AuditFormat(h), lines) && previousHash == HeadOf(AuditFormat(h), lines)
    }

    /** `write`. The file goes on verifying exactly when the details do not replace the link; no detail may
        be called `record_hash`, which the record's own hash would replace after it was taken. */
    method Write(time: int, event: string, details: seq<Member>)
      requires Valid() && IsDict(details)
      modifies this
      ensures lines == old(lines) + [Line(h, Unhashed(time, runId, event, old(previousHash), details))]
      ensures !HasKey(Safe(details), RECORD_HASH) ==> (Valid() <==> KeepsLink(details, old(previousHash)))
    {
      var record := Unhashed(time, runId, event, previousHash, details);
      var line := Line(h, record);
      if !HasKey(Safe(details), RECORD_HASH) {
        WrittenLineOk(h, time, runId, event, previousHash, details);
      }
      VerifiesAppend(AuditFormat(h), lines, line);
      previousHash := Digest(h, JObj(record));
      lines := lines + [line];
    }
  }

  /** Opening a log: a file with content is verified first, and its head is where the chain goes on. */
  method OpenLog(h: Hashes, lines: seq<string>, runId: string) returns (r: Result<AuditFile, AuditError>)
    ensures r.Ok? <==> Verifies(AuditFormat(h), lines)
    ensures r.Ok? ==> fresh(r.value) && r.value.Valid() && r.value.lines == lines && r.value.h == h
    ensures r.Ok? ==> r.value.runId == runId
  {
    if lines == [] {
      var log := new AuditFile(h, [], runId, Genesis());
      return Ok(log);
    }
    var verified := VerifyAuditLog(h, lines);
    if verified.Err? {
      return Err(verified.error);
    }
    var log := new AuditFile(h, lines, runId, verified.value.1);
    r := Ok(log);
  }

  datatype Entry = Entry(time: int, event: string, details: seq<Member>, reopen: bool)

  /** The line an entry makes behind the ones before it. */
  function EntryLine(h: Hashes, runId: string, e: Entry, head: string): string {
    Line(h, Unhashed(e.time, runId, e.event, head, e.details))
  }

  /** Each line records its entry, linked to the head of the lines before it. */
  ghost predicate Records(h: Hashes, runId: string, entries: seq<Entry>, lines: seq<string>) {
    |lines| <= |entries|
    && forall i | 0 <= i < |lines| :: lines[i] == EntryLine(h, runId, entries[i], HeadOf(AuditFormat(h), lines[..i]))
  }

  lemma RecordsOn(h: Hashes, runId: string, entries: seq<Entry>, lines: seq<string>, line: string)
    requires Records(h, runId, entries, lines) && |lines| < |entries|
    requires line == EntryLine(h, runId, entries[|lines|], HeadOf(AuditFormat(h), lines))
    ensures Records(h, runId, entries, lines + [line])
  {
    var more := lines + [line];
    forall i | 0 <= i < |more|
      ensures more[i] == EntryLine(h, runId, entries[i], HeadOf(AuditFormat(h), more[..i]))
    {
      if i < |lines| {
        assert more[..i] == lines[..i];
      } else {
        assert more[..i] == lines;
      }
    }
  }

  /** Any run of writes, the log being closed and opened again wherever `reopen` says so: every opening
      succeeds, the file verifies at the end, line for line it records the entries in order, and `head` is what
      the next record would be linked to. */
  method RunLog(h: Hashes, runId: string, entries: seq<Entry>) returns (lines: seq<string>, head: string)
    requires forall e | e in entries ::
             IsDict(e.details) && !HasKey(e.details, RECORD_HASH) && !HasKey(e.details, PREVIOUS)
    ensures Verifies(AuditFormat(h), lines) && head == HeadOf(AuditFormat(h), lines)
    ensures |lines| == |entries| && Records(h, runId, entries, lines)
  {
    lines := [];
    var again := OpenLog(h, lines, runId);
    var log := again.value;
    for i := 0 to |entries|
      invariant fresh(log) && log.Valid() && log.h == h && log.runId == runId && |log.lines| == i
      invariant Records(h, runId, entries, log.lines)
    {
      var e := entries[i];
      if e.reopen {
        again := OpenLog(h, log.lines, runId);
        log := again.value;
      }
      CleanKeepsLink(e.details, log.previousHash);
      RecordsOn(h, runId, entries, log.lines, EntryLine(h, runId, e, log.previousHash));
      log.Write(e.time, e.event, e.details);
    }
    lines, head := log.lines, log.previousHash;
  }

  lemma CleanKeepsLink(details: seq<Member>, head: string)
    requires IsDict(details) && !HasKey(details, RECORD_HASH) && !HasKey(details, PREVIOUS)
    ensures !HasKey(Safe(details), RECORD_HASH) && KeepsLink(details, head)
  {
    SafeKeeps(details);
    forall i | 0 <= i < |Safe(details)|
      ensures Safe(details)[i].0 != RECORD_HASH && Safe(details)[i].0 != PREVIOUS
    {
      assert Safe(details)[i] in details;
      var k :| 0 <= k < |details| && details[k] == Safe(details)[i];
      assert details[k].0 != RECORD_HASH && details[k].0 != PREVIOUS;
    }
    LookupMissing(Safe(details), PREVIOUS);
  }
}
