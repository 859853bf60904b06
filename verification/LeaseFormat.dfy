/** The preflight lease as the launcher writes it, the check of the report inside, and a lease that is too long. */
module LeaseFormat {
  import opened Wrappers
  import opened Text
  import opened Json
  import opened JsonParser
  import opened Canonical
  import opened ReceiptText
  import opened PreflightLease
  import Utf8

  const LEASE_SCHEMA := "loveengine.shared-host-preflight-lease/1"
  const REPORT_SCHEMA := "loveengine.remote-host-preflight/1"

  /** The members in sorted order, as `sort_keys` leaves them. */
  function ThresholdMembers(t: Thresholds): seq<Member> {
    [("max_load_per_cpu", JStr(t.load)), ("min_available_memory_bytes", JInt(t.memory)),
     ("min_cpu_count", JInt(t.cpus)), ("min_free_disk_bytes", JInt(t.disk))]
  }

  function LauncherMembers(l: Lease): seq<Member> {
    [("pid", JInt(l.launcherPid)), ("process_start_ticks", JInt(l.launcherTicks))]
  }

  function LeaseMembers(l: Lease, schema: string): seq<Member> {
    [("expires_at_monotonic_ns", JInt(l.expires)), ("issued_at_monotonic_ns", JInt(l.issued)),
     ("launcher", JObj(LauncherMembers(l))), ("lease_id", JStr(l.leaseId)), ("preflight", l.preflight),
     ("schema_version", JStr(schema)), ("thresholds", JObj(ThresholdMembers(l.thresholds))),
     ("workspace", JStr(l.workspace))]
  }

  function LeaseText(l: Lease): string {
    Print(JObj(LeaseMembers(Sorted(l), LEASE_SCHEMA)), Spaced)
  }

  function EncodeLease(l: Lease): bytes {
    Utf8.Encode(LeaseText(l))
  }

  function IntField(v: Json, key: string): Option<int> {
    match Field(v, key)
    case Some(JInt(n)) => Some(n)
    case _ => None
  }

  function TextField(v: Json, key: string): Option<string> {
    match Field(v, key)
    case Some(JStr(s)) => Some(s)
    case _ => None
  }

  /** `_has_exact_thresholds` leaves one record: the four fields with their types and nothing else. */
  function ThresholdsOf(v: Json): Option<Thresholds> {
    var load, memory := TextField(v, "max_load_per_cpu"), IntField(v, "min_available_memory_bytes");
    var cpus, disk := IntField(v, "min_cpu_count"), IntField(v, "min_free_disk_bytes");
    if load.None? || memory.None? || cpus.None? || disk.None? || |v.members| != 4 then None
    else Some(Thresholds(load.value, memory.value, cpus.value, disk.value))
  }

  function LeaseOf(v: Json, schema: string): Option<Lease> {
    var id, workspace := TextField(v, "lease_id"), TextField(v, "workspace");
    var issued, expires := IntField(v, "issued_at_monotonic_ns"), IntField(v, "expires_at_monotonic_ns");
    var launcher, thresholds, preflight := Field(v, "launcher"), Field(v, "thresholds"), Field(v, "preflight");
    if TextField(v, "schema_version") != Some(schema) || id.None? || workspace.None? || issued.None? || expires.None?
       || launcher.None? || thresholds.None? || preflight.None? then None
    else
      var pid, ticks := IntField(launcher.value, "pid"), IntField(launcher.value, "process_start_ticks");
      var t := ThresholdsOf(thresholds.value);
      if pid.None? || ticks.None? || t.None? || !UniqueKeys(preflight.value) then None
      else Some(Lease(id.value, workspace.value, t.value, preflight.value, pid.value, ticks.value, issued.value,
                      expires.value))
  }

  function DecodeLease(data: bytes): Option<Lease> {
    var text := Utf8.Decode(data);
    if text.None? then None
    else
      var v := Loads(text.value);
      if v.None? then None else LeaseOf(v.value, LEASE_SCHEMA)
  }

  // ----- Reading undoes writing -----

  lemma MemberAt(ms: seq<Member>, i: nat)
    requires DistinctKeys(ms) && i < |ms|
    ensures Lookup(ms, ms[i].0) == Some(ms[i].1)
  {
    assert ms[i] == (ms[i].0, ms[i].1);
    LookupIsMember(ms, ms[i].0, ms[i].1);
  }

  lemma ThresholdKeys(t: Thresholds)
    ensures DistinctKeys(ThresholdMembers(t))
  {
    assert |"max_load_per_cpu"| == 16 && |"min_available_memory_bytes"| == 26 && |"min_cpu_count"| == 13;
    assert |"min_free_disk_bytes"| == 19;
  }

  lemma ThresholdsReadBack(t: Thresholds)
    ensures ThresholdsOf(JObj(ThresholdMembers(t))) == Some(t)
  {
    ThresholdKeys(t);
    var ms := ThresholdMembers(t);
    MemberAt(ms, 0);
    MemberAt(ms, 1);
    MemberAt(ms, 2);
    MemberAt(ms, 3);
  }

  lemma LauncherReadBack(l: Lease)
    ensures IntField(JObj(LauncherMembers(l)), "pid") == Some(l.launcherPid)
    ensures IntField(JObj(LauncherMembers(l)), "process_start_ticks") == Some(l.launcherTicks)
  {
    assert |"pid"| == 3 && |"process_start_ticks"| == 19;
    MemberAt(LauncherMembers(l), 0);
    MemberAt(LauncherMembers(l), 1);
  }

  lemma LeaseKeys(l: Lease, schema: string)
    ensures DistinctKeys(LeaseMembers(l, schema))
  {
    assert |"expires_at_monotonic_ns"| == 23 && |"issued_at_monotonic_ns"| == 22 && |"schema_version"| == 14;
    assert |"thresholds"| == 10 && |"preflight"| == 9 && |"workspace"| == 9 && |"launcher"| == 8 && |"lease_id"| == 8;
    assert "preflight"[0] == 'p' && "workspace"[0] == 'w' && "launcher"[1] == 'a' && "lease_id"[1] == 'e';
  }

  lemma LeaseReadBack(l: Lease, schema: string)
    ensures LeaseOf(JObj(LeaseMembers(l, schema)), schema) == Some(l)
  {
    LeaseKeys(l, schema);
    var ms := LeaseMembers(l, schema);
    MemberAt(ms, 0);
    MemberAt(ms, 1);
    MemberAt(ms, 2);
    MemberAt(ms, 3);
    MemberAt(ms, 4);
    MemberAt(ms, 5);
    MemberAt(ms, 6);
    MemberAt(ms, 7);
    ThresholdsReadBack(l.thresholds);
    LauncherReadBack(l);
  }

  /** What the launcher writes, the supervisor reads, the report's keys sorted. */
  lemma DecodeUndoesEncode(l: Lease)
    ensures EncodeLease(l) != [] && DecodeLease(EncodeLease(l)) == Some(Sorted(l))
  {
    Utf8.RoundTrip(LeaseText(l));
    LoadsUndoesPrint(JObj(LeaseMembers(Sorted(l), LEASE_SCHEMA)), Spaced);
    LeaseReadBack(Sorted(l), LEASE_SCHEMA);
  }

  // ----- The report -----

  /** The thresholds of the report are exactly the record. */
  predicate SameThresholds(v: Json, t: Thresholds) {
    Normalize(v) == JObj(ThresholdMembers(t))
  }

  predicate HostOk(host: Json) {
    Field(host, "process_snapshot_ok") == Some(JBool(true)) && Field(host, "relevant_processes") == Some(JArr([]))
  }

  /** `is_passing_preflight`. */
  predicate Passing(r: Report, workspace: string, t: Thresholds) {
    var checked, thresholds, host := IntField(r, "checked_at_monotonic_ns"), Field(r, "thresholds"), Field(r, "host");
    && Field(r, "schema_version") == Some(JStr(REPORT_SCHEMA)) && Field(r, "workspace") == Some(JStr(workspace))
    && Field(r, "safe_to_run") == Some(JBool(true)) && Field(r, "mutated_host") == Some(JBool(false))
    && Field(r, "reasons") == Some(JArr([]))
    && checked.Some? && checked.value > 0
    && thresholds.Some? && SameThresholds(thresholds.value, t)
    && host.Some? && HostOk(host.value)
  }

  lemma FieldUnique(r: Json, key: string)
    requires UniqueKeys(r) && Field(r, key).Some?
    ensures UniqueKeys(Field(r, key).value)
  {
    LookupFinds(r.members, key);
    var v := Field(r, key).value;
    var i :| 0 <= i < |r.members| && r.members[i] == (key, v);
  }

  /** Sorting keys keeps a field, and what it can be compared with. */
  lemma FieldAfterSorting(r: Report, key: string)
    ensures (Field(SortedReport(r), key)
             == if Field(r, key).Some? then Some(Normalize(Field(r, key).value)) else None)
    ensures Field(r, key).Some? ==> UniqueKeys(Field(r, key).value)
  {
    FieldOfNormal(r, key);
    if Field(r, key).Some? {
      FieldUnique(r, key);
    }
  }

  lemma PlainAfterSorting(v: Json)
    ensures forall b :: Normalize(v) == JBool(b) <==> v == JBool(b)
    ensures forall s :: Normalize(v) == JStr(s) <==> v == JStr(s)
    ensures forall n :: Normalize(v) == JInt(n) <==> v == JInt(n)
    ensures Normalize(v) == JArr([]) <==> v == JArr([])
  {
    if v.JArr? {
      assert |NormalizeAll(v.items)| == |v.items|;
    }
  }

  lemma HostAfterSorting(host: Report)
    ensures HostOk(SortedReport(host)) == HostOk(host)
  {
    FieldAfterSorting(host, "process_snapshot_ok");
    FieldAfterSorting(host, "relevant_processes");
    var a, b := Field(host, "process_snapshot_ok"), Field(host, "relevant_processes");
    if a.Some? {
      PlainAfterSorting(a.value);
    }
    if b.Some? {
      PlainAfterSorting(b.value);
    }
  }

  lemma FieldStays(r: Report, key: string)
    ensures forall b :: Field(SortedReport(r), key) == Some(JBool(b)) <==> Field(r, key) == Some(JBool(b))
    ensures forall s :: Field(SortedReport(r), key) == Some(JStr(s)) <==> Field(r, key) == Some(JStr(s))
    ensures IntField(SortedReport(r), key) == IntField(r, key)
    ensures Field(SortedReport(r), key) == Some(JArr([])) <==> Field(r, key) == Some(JArr([]))
  {
    FieldAfterSorting(r, key);
    if Field(r, key).Some? {
      PlainAfterSorting(Field(r, key).value);
      var n := IntField(SortedReport(r), key);
      assert n.Some? ==> Field(r, key) == Some(JInt(n.value));
    }
  }

  lemma NestedAfterSorting(r: Report, t: Thresholds)
    ensures ((Field(SortedReport(r), "thresholds").Some?
              && SameThresholds(Field(SortedReport(r), "thresholds").value, t))
             <==> (Field(r, "thresholds").Some? && SameThresholds(Field(r, "thresholds").value, t)))
    ensures ((Field(SortedReport(r), "host").Some? && HostOk(Field(SortedReport(r), "host").value))
             <==> (Field(r, "host").Some? && HostOk(Field(r, "host").value)))
  {
    FieldAfterSorting(r, "thresholds");
    FieldAfterSorting(r, "host");
    if Field(r, "thresholds").Some? {
      NormalizeTwice(Field(r, "thresholds").value);
    }
    if Field(r, "host").Some? {
      HostAfterSorting(Field(r, "host").value);
    }
  }

  /** The check of a report looks fields up by their keys, so their order does not matter. */
  lemma PassingAfterSorting(r: Report, workspace: string, t: Thresholds)
    ensures Passing(SortedReport(r), workspace, t) == Passing(r, workspace, t)
  {
    FieldStays(r, "schema_version");
    FieldStays(r, "workspace");
    FieldStays(r, "safe_to_run");
    FieldStays(r, "mutated_host");
    FieldStays(r, "reasons");
    FieldStays(r, "checked_at_monotonic_ns");
    NestedAfterSorting(r, t);
  }

  // ----- The codec of the repository -----

  function LeaseCodec(): Codec {
    Codec((l: Lease) => EncodeLease(l), (b: bytes) => DecodeLease(b),
          (r: Report, w: string, t: Thresholds) => Passing(r, w, t))
  }

  lemma LeaseCodecLawful()
    ensures LeaseCodec().Lawful()
  {
    var c := LeaseCodec();
    forall l
      ensures c.encode(l) != [] && c.decode(c.encode(l)) == Some(Sorted(l))
    {
      DecodeUndoesEncode(l);
    }
    forall r, w, t {:trigger c.passing(r, w, t)}
      ensures c.passing(SortedReport(r), w, t) == c.passing(r, w, t)
    {
      PassingAfterSorting(r, w, t);
    }
  }

  // ----- A lease that is too long -----

  lemma {:induction false} EncodeGrows(s: string)
    ensures |Utf8.Encode(s)| >= |s|
  {
    if s != "" {
      EncodeGrows(s[1..]);
    }
  }

  lemma {:induction false} EscapeGrows(s: string)
    ensures |Escape(s)| >= |s|
  {
    if s != "" {
      EscapeGrows(s[1..]);
    }
  }

  lemma {:induction false} LastMemberFits(ms: seq<Member>, f: Format)
    requires ms != []
    ensures |PrintMembers(ms, f)| >= |PrintMember(ms[|ms| - 1], f)|
  {
    if |ms| > 1 {
      LastMemberFits(ms[1..], f);
    }
  }

  lemma ObjectIsLong(ms: seq<Member>, f: Format, key: string, text: string)
    requires ms != [] && ms[|ms| - 1] == (key, JStr(text))
    ensures |Print(JObj(ms), f)| > |text|
  {
    LastMemberFits(ms, f);
    EscapeGrows(text);
  }

  lemma LeaseIsLong(l: Lease)
    ensures |EncodeLease(l)| > |l.workspace|
  {
    ObjectIsLong(LeaseMembers(Sorted(l), LEASE_SCHEMA), Spaced, "workspace", l.workspace);
    EncodeGrows(LeaseText(l));
  }

  /** A report that passes, for any workspace. */
  function ReportMembers(workspace: string, t: Thresholds): seq<Member> {
    [("schema_version", JStr(REPORT_SCHEMA)), ("workspace", JStr(workspace)), ("safe_to_run", JBool(true)),
     ("mutated_host", JBool(false)), ("reasons", JArr([])), ("checked_at_monotonic_ns", JInt(1)),
     ("thresholds", JObj(ThresholdMembers(t))),
     ("host", JObj([("process_snapshot_ok", JBool(true)), ("relevant_processes", JArr([]))]))]
  }

  lemma ReportKeys(workspace: string, t: Thresholds)
    ensures DistinctKeys(ReportMembers(workspace, t))
  {
    assert |"schema_version"| == 14 && |"workspace"| == 9 && |"safe_to_run"| == 11 && |"mutated_host"| == 12;
    assert |"reasons"| == 7 && |"checked_at_monotonic_ns"| == 23 && |"thresholds"| == 10 && |"host"| == 4;
  }

  /** Texts that first differ at position `n`. */
  lemma {:induction false} LessAt(a: string, b: string, n: nat)
    requires n < |a| && n < |b| && a[..n] == b[..n] && a[n] < b[n]
    ensures Less(a, b)
  {
    if n > 0 {
      assert a[0] == a[..n][0] == b[..n][0] == b[0];
      assert a[1..][..n - 1] == a[..n][1..] && b[1..][..n - 1] == b[..n][1..];
      LessAt(a[1..], b[1..], n - 1);
    }
  }

  lemma AscendingFour(ms: seq<Member>)
    requires |ms| == 4 && Less(ms[0].0, ms[1].0) && Less(ms[1].0, ms[2].0) && Less(ms[2].0, ms[3].0)
    ensures Ascending(ms)
  {
    LessTransitive(ms[0].0, ms[1].0, ms[2].0);
    LessTransitive(ms[0].0, ms[2].0, ms[3].0);
    LessTransitive(ms[1].0, ms[2].0, ms[3].0);
  }

  lemma KeysAscend(a: string, b: string, c: string, d: string)
    requires a == "max_load_per_cpu" && b == "min_available_memory_bytes"
    requires c == "min_cpu_count" && d == "min_free_disk_bytes"
    ensures Less(a, b) && Less(b, c) && Less(c, d)
  {
    LessAt(a, b, 1);
    LessAt(b, c, 4);
    LessAt(c, d, 4);
  }

  lemma ThresholdsAscend(ms: seq<Member>)
    requires |ms| == 4 && ms[0].0 == "max_load_per_cpu" && ms[1].0 == "min_available_memory_bytes"
    requires ms[2].0 == "min_cpu_count" && ms[3].0 == "min_free_disk_bytes"
    ensures Ascending(ms)
  {
    KeysAscend(ms[0].0, ms[1].0, ms[2].0, ms[3].0);
    AscendingFour(ms);
  }

  lemma PlainMembers(ms: seq<Member>)
    requires Ascending(ms) && forall i | 0 <= i < |ms| :: ms[i].1.JStr? || ms[i].1.JInt?
    ensures Normalize(JObj(ms)) == JObj(ms)
  {
    AscendingSorted(ms);
    forall i | 0 <= i < |ms|
      ensures NormalizeMembers(ms)[i] == ms[i]
    {
      assert Normalize(ms[i].1) == ms[i].1;
    }
    assert NormalizeMembers(ms) == ms;
  }

  lemma ThresholdsSorted(t: Thresholds)
    ensures SameThresholds(JObj(ThresholdMembers(t)), t)
  {
    var ms := ThresholdMembers(t);
    ThresholdsAscend(ms);
    PlainMembers(ms);
  }

  lemma HostPasses()
    ensures HostOk(JObj([("process_snapshot_ok", JBool(true)), ("relevant_processes", JArr([]))]))
  {
    var ms: seq<Member> := [("process_snapshot_ok", JBool(true)), ("relevant_processes", JArr([]))];
    assert "process_snapshot_ok"[0] == 'p' && "relevant_processes"[0] == 'r';
    MemberAt(ms, 0);
    MemberAt(ms, 1);
  }

  lemma ReportFields(ms: seq<Member>, workspace: string, t: Thresholds)
    requires ms == ReportMembers(workspace, t) && DistinctKeys(ms)
    ensures forall i | 0 <= i < |ms| :: Field(JObj(ms), ms[i].0) == Some(ms[i].1)
  {
    forall i | 0 <= i < |ms|
      ensures Field(JObj(ms), ms[i].0) == Some(ms[i].1)
    {
      MemberAt(ms, i);
    }
  }

  lemma ReportUnique(workspace: string, t: Thresholds)
    ensures UniqueKeys(JObj(ReportMembers(workspace, t)))
  {
    ReportKeys(workspace, t);
    ThresholdKeys(t);
    assert "process_snapshot_ok"[0] == 'p' && "relevant_processes"[0] == 'r';
  }

  lemma ReportPasses(workspace: string, t: Thresholds)
    ensures UniqueKeys(JObj(ReportMembers(workspace, t))) && Passing(JObj(ReportMembers(workspace, t)), workspace, t)
  {
    var ms := ReportMembers(workspace, t);
    ReportKeys(workspace, t);
    ReportFields(ms, workspace, t);
    ReportUnique(workspace, t);
    assert Field(JObj(ms), ms[0].0) == Some(ms[0].1) && Field(JObj(ms), ms[1].0) == Some(ms[1].1);
    assert Field(JObj(ms), ms[2].0) == Some(ms[2].1) && Field(JObj(ms), ms[3].0) == Some(ms[3].1);
    assert Field(JObj(ms), ms[4].0) == Some(ms[4].1) && Field(JObj(ms), ms[5].0) == Some(ms[5].1);
    assert Field(JObj(ms), ms[6].0) == Some(ms[6].1) && Field(JObj(ms), ms[7].0) == Some(ms[7].1);
    ThresholdsSorted(t);
    HostPasses();
  }

  /** The leak happens: for a workspace whose path is as long as the limit, a passing preflight is refused as a
      lease and the descriptor stays open. This is an input of the function rather than of a start on a real host,
      where a path of 65,536 characters is longer than Linux allows. */
  method OversizedLeaseLeaks(workspace: string, t: Thresholds, leaseId: string) returns (p: Pipe, ok: bool)
    requires |workspace| >= MAX_BYTES
    ensures fresh(p) && !ok && !p.closed
  {
    p := new Pipe([]);
    var c := LeaseCodec();
    ReportPasses(workspace, t);
    var r: Report := JObj(ReportMembers(workspace, t));
    LeaseIsLong(Lease(leaseId, workspace, t, r, 2, 1, 0, TTL_NS));
    ok := CreateLease(c, p, leaseId, workspace, t, r, 2, 1, 0);
  }
}
