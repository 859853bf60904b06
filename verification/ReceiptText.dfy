/** Receipts as JSON objects, the text the journal keeps of them, and the frame that carries them. */
module ReceiptText {
  import opened Wrappers
  import opened Json
  import opened JsonParser
  import opened Canonical

  /** What a Python dictionary can be: no key twice. */
  type Receipt = r: Json | UniqueKeys(r) witness JNull

  function Lookup(ms: seq<Member>, key: string): Option<Json> {
    if ms == [] then None else if ms[0].0 == key then Some(ms[0].1) else Lookup(ms[1..], key)
  }

  function Field(r: Json, key: string): Option<Json> {
    if r.JObj? then Lookup(r.members, key) else None
  }

  /** `receipt["task_id"]`, the empty string when there is none. */
  function TaskId(r: Receipt): string {
    match Field(r, "task_id")
    case Some(JStr(s)) => s
    case _ => ""
  }

  /** `receipt["status"] == "rejected"`. */
  function Rejected(r: Receipt): bool {
    Field(r, "status") == Some(JStr("rejected"))
  }

  /** `AgentTaskJournal._serialized`. */
  function Dump(r: Receipt): string {
    CanonicalText(r)
  }

  /** `json.loads` of a stored receipt. */
  function Load(text: string): Receipt {
    match Loads(text)
    case Some(v) => if UniqueKeys(v) then v else JNull
    case None => JNull
  }

  // ----- What sorting the keys keeps -----

  lemma {:induction false} NormalizeKeepsUnique(v: Json)
    requires UniqueKeys(v)
    ensures UniqueKeys(Normalize(v))
    decreases v
  {
    match v
    case JArr(items) =>
      forall i | 0 <= i < |items|
        ensures UniqueKeys(NormalizeAll(items)[i])
      {
        NormalizeKeepsUnique(items[i]);
      }
    case JObj(members) =>
      ObjectKeepsUnique(members);
    case _ =>
  }

  lemma ObjectKeepsUnique(members: seq<Member>)
    requires UniqueKeys(JObj(members))
    ensures UniqueKeys(JObj(SortMembers(NormalizeMembers(members))))
    decreases members
  {
    var ns := NormalizeMembers(members);
    SortAscends(ns);
    SortContents(ns);
    var sorted := SortMembers(ns);
    forall i, j | 0 <= i < j < |sorted|
      ensures sorted[i].0 != sorted[j].0
    {
      assert Less(sorted[i].0, sorted[j].0);
      LessIrreflexive(sorted[i].0);
    }
    forall i | 0 <= i < |sorted|
      ensures UniqueKeys(sorted[i].1)
    {
      assert sorted[i] in ns;
      var k :| 0 <= k < |ns| && ns[k] == sorted[i];
      assert ns[k] == NormalizeMember(members[k]);
      NormalizeKeepsUnique(members[k].1);
    }
  }

  lemma AscendingSorted(ms: seq<Member>)
    requires Ascending(ms)
    ensures SortMembers(ms) == ms
  {
    forall i, j | 0 <= i < j < |ms|
      ensures ms[i].0 != ms[j].0
    {
      LessIrreflexive(ms[i].0);
    }
    SortAscends(ms);
    SortContents(ms);
    AscendingUnique(SortMembers(ms), ms);
  }

  /** Sorting the keys again changes nothing. */
  lemma {:induction false} NormalizeTwice(v: Json)
    requires UniqueKeys(v)
    ensures Normalize(Normalize(v)) == Normalize(v)
    decreases v
  {
    match v
    case JArr(items) =>
      forall i | 0 <= i < |items|
        ensures NormalizeAll(NormalizeAll(items))[i] == NormalizeAll(items)[i]
      {
        NormalizeTwice(items[i]);
      }
    case JObj(members) =>
      var ns := NormalizeMembers(members);
      SortAscends(ns);
      SortContents(ns);
      var sorted := SortMembers(ns);
      forall i | 0 <= i < |sorted|
        ensures NormalizeMembers(sorted)[i] == sorted[i]
      {
        assert sorted[i] in ns;
        var k :| 0 <= k < |ns| && ns[k] == sorted[i];
        NormalizeTwice(members[k].1);
      }
      assert NormalizeMembers(sorted) == sorted;
      AscendingSorted(sorted);
    case _ =>
  }

  lemma {:induction false} LookupIsMember(ms: seq<Member>, key: string, v: Json)
    requires DistinctKeys(ms) && (key, v) in ms
    ensures Lookup(ms, key) == Some(v)
  {
    var i :| 0 <= i < |ms| && ms[i] == (key, v);
    if i > 0 {
      assert ms[0].0 != ms[i].0;
      assert ms[1..][i - 1] == ms[i];
      LookupIsMember(ms[1..], key, v);
    }
  }

  lemma {:induction false} LookupFinds(ms: seq<Member>, key: string)
    ensures Lookup(ms, key).Some? ==> (key, Lookup(ms, key).value) in ms
    ensures Lookup(ms, key).None? ==> forall v :: (key, v) !in ms
  {
    if ms != [] {
      LookupFinds(ms[1..], key);
      assert ms == [ms[0]] + ms[1..];
    }
  }

  /** A field with a plain value is read the same before and after sorting. */
  lemma FieldOfNormal(r: Json, key: string)
    requires UniqueKeys(r)
    ensures Field(Normalize(r), key) == if Field(r, key).Some? then Some(Normalize(Field(r, key).value)) else None
  {
    if r.JObj? {
      var ns := NormalizeMembers(r.members);
      SortContents(ns);
      NormalizeKeepsUnique(r);
      LookupFinds(r.members, key);
      LookupFinds(SortMembers(ns), key);
      var found := Lookup(r.members, key);
      if found.Some? {
        NormalizedMember(r.members, (key, found.value));
        LookupIsMember(SortMembers(ns), key, Normalize(found.value));
      } else {
        forall k | 0 <= k < |ns|
          ensures ns[k].0 != key
        {
          assert r.members[k] in r.members && r.members[k] == (r.members[k].0, r.members[k].1);
          assert ns[k] == NormalizeMember(r.members[k]);
        }
      }
    }
  }

  lemma SameFields(r: Receipt, s: Receipt)
    requires Normalize(r) == Normalize(s)
    ensures TaskId(r) == TaskId(s) && Rejected(r) == Rejected(s)
  {
    FieldOfNormal(r, "task_id");
    FieldOfNormal(s, "task_id");
    FieldOfNormal(r, "status");
    FieldOfNormal(s, "status");
  }

  /** The text decides the receipt's fields, and a receipt read back from its text has the same text. */
  lemma TextDecides(r: Receipt, s: Receipt)
    ensures Dump(r) == Dump(s) ==> TaskId(r) == TaskId(s) && Rejected(r) == Rejected(s)
    ensures Load(Dump(r)) == Normalize(r) && Dump(Load(Dump(r))) == Dump(r)
  {
    ReadBack(r);
    ReadBack(s);
    NormalizeKeepsUnique(r);
    NormalizeTwice(r);
    if Dump(r) == Dump(s) {
      SameFields(r, s);
    }
  }

  lemma TextLaws()
    ensures forall r: Receipt, s: Receipt :: Dump(r) == Dump(s) ==> TaskId(r) == TaskId(s) && Rejected(r) == Rejected(s)
    ensures forall r: Receipt :: Dump(Load(Dump(r))) == Dump(r)
  {
    forall r: Receipt, s: Receipt {:trigger Dump(r), Dump(s)}
      ensures Dump(r) == Dump(s) ==> TaskId(r) == TaskId(s) && Rejected(r) == Rejected(s)
      ensures Dump(Load(Dump(r))) == Dump(r)
    {
      TextDecides(r, s);
    }
    forall r: Receipt
      ensures Dump(Load(Dump(r))) == Dump(r)
    {
      TextDecides(r, r);
    }
  }

  // ----- The frame -----

  /** `ws.send_json`, which does not sort the keys. */
  function Frame(r: Receipt): string {
    Print(JObj([("type", JStr("receipt")), ("receipt", r)]), Spaced)
  }

  /** A resent receipt is the first one with its keys sorted: the same value, but the same frame only when
      its keys were in order from the start. */
  lemma ResentFrame(r: Receipt)
    ensures Frame(Load(Dump(r))) == Frame(r) <==> Normalize(r) == r
    ensures Same(r, Load(Dump(r)))
  {
    TextDecides(r, r);
    var first := JObj([("type", JStr("receipt")), ("receipt", r)]);
    var again := JObj([("type", JStr("receipt")), ("receipt", Load(Dump(r)))]);
    LoadsUndoesPrint(first, Spaced);
    LoadsUndoesPrint(again, Spaced);
    assert first == again <==> first.members[1].1 == again.members[1].1;
    NormalizeTwice(r);
    NormalSame(r, Normalize(r));
  }

  /** What the signer puts into a receipt; `result` is a dictionary of its own. */
  datatype Fields = Fields(version: string, chainId: string, registry: string, taskId: string, node: string,
                           status: string, result: Receipt, resultHash: string, nonce: string, completedAt: string,
                           signature: string)

  const RECEIPT_KEYS: seq<string> := ["schema_version", "chain_id", "registry", "task_id", "node", "status", "result",
                                      "result_hash", "nonce", "completed_at", "signature"]

  function ReceiptMembers(f: Fields): (ms: seq<Member>)
    ensures |ms| == |RECEIPT_KEYS| && forall i | 0 <= i < |ms| :: ms[i].0 == RECEIPT_KEYS[i]
  {
    [("schema_version", JStr(f.version)), ("chain_id", JStr(f.chainId)),
     ("registry", JStr(f.registry)), ("task_id", JStr(f.taskId)), ("node", JStr(f.node)), ("status", JStr(f.status)),
     ("result", f.result), ("result_hash", JStr(f.resultHash)), ("nonce", JStr(f.nonce)),
     ("completed_at", JStr(f.completedAt)), ("signature", JStr(f.signature))]
  }

  lemma ReceiptKeysDiffer(i: nat, j: nat)
    requires i < j < |RECEIPT_KEYS|
    ensures RECEIPT_KEYS[i] != RECEIPT_KEYS[j]
  {
    var lengths := [14, 8, 8, 7, 4, 6, 6, 11, 5, 12, 9];
    assert forall k | 0 <= k < 11 :: |RECEIPT_KEYS[k]| == lengths[k];
    assert RECEIPT_KEYS[1][0] == 'c' && RECEIPT_KEYS[2][0] == 'r';
    assert RECEIPT_KEYS[5][0] == 's' && RECEIPT_KEYS[6][0] == 'r';
  }

  /** `build_receipt_v2` and `build_receipt` with their signature: the task's id and the status arrive in
      the receipt. */
  function BuildReceipt(f: Fields): (r: Receipt)
    ensures r == JObj(ReceiptMembers(f))
  {
    var ms := ReceiptMembers(f);
    assert UniqueKeys(JObj(ms)) by {
      forall i, j | 0 <= i < j < |ms|
        ensures ms[i].0 != ms[j].0
      {
        ReceiptKeysDiffer(i, j);
      }
    }
    JObj(ms)
  }

  lemma FieldAt(r: Receipt, i: nat, key: string, text: string)
    requires r.JObj? && i < |r.members| && r.members[i] == (key, JStr(text))
    ensures Field(r, key) == Some(JStr(text))
  {
    LookupIsMember(r.members, key, JStr(text));
  }

  lemma TextAt(r: Receipt, taskId: string, status: string)
    requires Field(r, "task_id") == Some(JStr(taskId)) && Field(r, "status") == Some(JStr(status))
    ensures TaskId(r) == taskId && (Rejected(r) <==> status == "rejected")
  {
  }

  lemma BuiltFields(f: Fields)
    ensures TaskId(BuildReceipt(f)) == f.taskId && (Rejected(BuildReceipt(f)) <==> f.status == "rejected")
  {
    var r := BuildReceipt(f);
    FieldAt(r, 3, "task_id", f.taskId);
    FieldAt(r, 5, "status", f.status);
    TextAt(r, f.taskId, f.status);
  }

  /** Every receipt the signer builds has its keys out of order: resent after a restart, its frame is another text. */
  lemma UnsortedFrame(f: Fields)
    ensures var r := BuildReceipt(f); Frame(Load(Dump(r))) != Frame(r) && Same(r, Load(Dump(r)))
  {
    var r := BuildReceipt(f);
    assert RECEIPT_KEYS[0][0] == 's' && RECEIPT_KEYS[1][0] == 'c';
    UnsortedChanges(ReceiptMembers(f), 0, 1);
    ResentFrame(r);
  }

  /** Sorting moves two keys that are out of order. */
  lemma UnsortedChanges(ms: seq<Member>, i: nat, j: nat)
    requires UniqueKeys(JObj(ms)) && i < j < |ms| && Less(ms[j].0, ms[i].0)
    ensures Normalize(JObj(ms)) != JObj(ms)
  {
    var ns := NormalizeMembers(ms);
    SortAscends(ns);
    if SortMembers(ns) == ms {
      LessTotal(ms[i].0, ms[j].0);
      assert false;
    }
  }
}
