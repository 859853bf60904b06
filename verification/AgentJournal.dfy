/** `AgentTaskJournal`: replay protection for tasks and the receipts to resend, once in two dictionaries and
    once in an SQLite table. Both refine one map from task ids to entries. */
module AgentJournal {
  import opened Wrappers

  /** A signed task: `content` is its serialized text, which the other fields are read from; `issuer` is
      normalised. */
  datatype Task = Task(id: string, issuer: string, nonce: string, content: string) {
    function Key(): NonceKey { (issuer, nonce) }
  }

  type NonceKey = (string, string)

  /** What is kept for a task id: whose nonce it used, its content, and the text of its receipt. */
  datatype Entry = Entry(key: NonceKey, content: string, receipt: Option<string>)

  type Log = map<string, Entry>

  /** `claim`: the stored receipt if there is one, or the error raised. */
  datatype Verdict = Proceed(receipt: Option<string>) | ReplayConflict | NonceReplay

  predicate NonceUsed(log: Log, key: NonceKey) {
    exists id | id in log :: log[id].key == key
  }

  function ClaimVerdict(log: Log, t: Task): Verdict {
    if t.id in log then
      if log[t.id].content != t.content then ReplayConflict else Proceed(log[t.id].receipt)
    else if NonceUsed(log, t.Key()) then NonceReplay
    else Proceed(None)
  }

  function Claim(log: Log, t: Task): Log {
    if t.id !in log && !NonceUsed(log, t.Key()) then log[t.id := Entry(t.Key(), t.content, None)] else log
  }

  function Save(log: Log, id: string, text: string): Log {
    if id in log then log[id := log[id].(receipt := Some(text))] else log
  }

  predicate Confirms(log: Log, id: string, text: string) {
    id in log && log[id].receipt == Some(text)
  }

  // ----- What every reachable journal keeps -----

  datatype Call = ClaimCall(task: Task) | SaveCall(id: string, text: string) | ConfirmCall(id: string, text: string)

  /** What a caller sees of a call. A save for an unknown task fails, in each journal with its own exception. */
  datatype Answer = Claimed(verdict: Verdict) | Done | Failed

  function Apply(log: Log, c: Call): Log {
    match c
    case ClaimCall(t) => Claim(log, t)
    case SaveCall(id, text) => Save(log, id, text)
    case ConfirmCall(_, _) => log
  }

  function AnswerTo(log: Log, c: Call): Answer {
    match c
    case ClaimCall(t) => Claimed(ClaimVerdict(log, t))
    case SaveCall(id, _) => if id in log then Done else Failed
    case ConfirmCall(id, text) => if Confirms(log, id, text) then Done else Failed
  }

  function Replay(log: Log, calls: seq<Call>): Log
    decreases calls
  {
    if calls == [] then log else Replay(Apply(log, calls[0]), calls[1..])
  }

  function Answers(log: Log, calls: seq<Call>): (r: seq<Answer>)
    ensures |r| == |calls|
    decreases calls
  {
    if calls == [] then [] else [AnswerTo(log, calls[0])] + Answers(Apply(log, calls[0]), calls[1..])
  }

  /** Each nonce of an issuer belongs to one task id. */
  predicate OneToOne(log: Log) {
    forall a, b | a in log && b in log && log[a].key == log[b].key :: a == b
  }

  /** Nothing is forgotten: ids stay, with their issuer, nonce and content. */
  predicate Retains(before: Log, after: Log) {
    forall id | id in before ::
      id in after && after[id].key == before[id].key && after[id].content == before[id].content
      && (before[id].receipt.Some? ==> after[id].receipt.Some?)
  }

  lemma ApplyKeeps(log: Log, c: Call)
    requires OneToOne(log)
    ensures OneToOne(Apply(log, c)) && Retains(log, Apply(log, c))
  {
    var after := Apply(log, c);
    forall a, b | a in after && b in after && after[a].key == after[b].key
      ensures a == b
    {
      if a in log && b in log {
        assert after[a].key == log[a].key && after[b].key == log[b].key;
      }
    }
  }

  /** In every state reached by any calls, a task id's content never changed and (issuer, nonce) to task id
      is one-to-one. */
  lemma {:induction false} JournalKeeps(log: Log, calls: seq<Call>)
    requires OneToOne(log)
    ensures OneToOne(Replay(log, calls)) && Retains(log, Replay(log, calls))
    decreases calls
  {
    if calls != [] {
      ApplyKeeps(log, calls[0]);
      JournalKeeps(Apply(log, calls[0]), calls[1..]);
    }
  }

  /** The key is part of what was signed: `keyOf` reads it from a task's serialized content. */
  predicate Coherent(log: Log, keyOf: string -> NonceKey) {
    forall id | id in log :: log[id].key == keyOf(log[id].content)
  }

  predicate CoherentCalls(calls: seq<Call>, keyOf: string -> NonceKey) {
    forall i | 0 <= i < |calls| && calls[i].ClaimCall? :: calls[i].task.Key() == keyOf(calls[i].task.content)
  }

  lemma {:induction false} StaysCoherent(log: Log, calls: seq<Call>, keyOf: string -> NonceKey)
    requires Coherent(log, keyOf) && CoherentCalls(calls, keyOf)
    ensures Coherent(Replay(log, calls), keyOf)
    decreases calls
  {
    if calls != [] {
      assert CoherentCalls(calls[1..], keyOf);
      StaysCoherent(Apply(log, calls[0]), calls[1..], keyOf);
    }
  }

  /** Replay protection: once a task was accepted, no task with its id but other content, and no task with
      its issuer and nonce but another id, is accepted after any calls whatever. */
  lemma ReplayRefused(log: Log, t: Task, calls: seq<Call>, u: Task, keyOf: string -> NonceKey)
    requires OneToOne(log) && Coherent(log, keyOf) && CoherentCalls(calls, keyOf)
    requires t.Key() == keyOf(t.content) && u.Key() == keyOf(u.content)
    requires t.id !in log && ClaimVerdict(log, t).Proceed?
    requires if u.id == t.id then u.content != t.content else u.Key() == t.Key()
    ensures !ClaimVerdict(Replay(Claim(log, t), calls), u).Proceed?
    ensures Claim(Replay(Claim(log, t), calls), u) == Replay(Claim(log, t), calls)
  {
    ApplyKeeps(log, ClaimCall(t));
    JournalKeeps(Claim(log, t), calls);
    StaysCoherent(Claim(log, t), calls, keyOf);
    var after := Replay(Claim(log, t), calls);
    assert t.id in Claim(log, t) && after[t.id].key == t.Key();
  }

  // ----- The dictionaries -----

  ghost predicate Inverse(keys: map<string, NonceKey>, nonces: map<NonceKey, string>) {
    && (forall id | id in keys :: keys[id] in nonces && nonces[keys[id]] == id)
    && (forall k | k in nonces :: nonces[k] in keys && keys[nonces[k]] == k)
  }

  lemma InverseInsert(keys: map<string, NonceKey>, nonces: map<NonceKey, string>, id: string, key: NonceKey)
    requires Inverse(keys, nonces) && id !in keys && key !in nonces
    ensures Inverse(keys[id := key], nonces[key := id])
  {
  }

  /** `path is None`: two dictionaries. A stored receipt is kept as the object itself, so what the journal
      returns is known up to its serialized text, which `dump` gives. */
  class MemoryJournal<R> {
    const dump: R -> string
    var tasks: map<string, (string, Option<R>)>
    var nonces: map<NonceKey, string>
    ghost var keys: map<string, NonceKey>

    constructor (dump: R -> string)
      ensures Valid() && Contents() == map[] && this.dump == dump
    {
      this.dump := dump;
      tasks, nonces, keys := map[], map[], map[];
    }

    /** The second dictionary is the inverse of the tasks' keys. */
    ghost predicate Valid()
      reads this
    {
      keys.Keys == tasks.Keys && Inverse(keys, nonces)
    }

    ghost function Text(r: Option<R>): Option<string> {
      if r.Some? then Some(dump(r.value)) else None
    }

    ghost function Contents(): (log: Log)
      requires Valid()
      reads this
    {
      map id | id in tasks :: Entry(keys[id], tasks[id].0, Text(tasks[id].1))
    }

    method ClaimTask(t: Task) returns (conflict: bool, replay: bool, receipt: Option<R>)
      requires Valid()
      modifies this
      ensures Valid() && Contents() == Claim(old(Contents()), t)
      ensures ClaimVerdict(old(Contents()), t)
           == if conflict then ReplayConflict else if replay then NonceReplay else Proceed(Text(receipt))
    {
      conflict, replay, receipt := false, false, None;
      if t.id in tasks {
        if tasks[t.id].0 != t.content {
          conflict := true;
        } else {
          receipt := tasks[t.id].1;
        }
        return;
      }
      if t.Key() in nonces {
        replay := true;
        assert Contents()[nonces[t.Key()]].key == t.Key();
        return;
      }
      NonceFree(t.Key());
      Insert(t);
    }

    lemma NonceFree(key: NonceKey)
      requires Valid() && key !in nonces
      ensures !NonceUsed(Contents(), key)
    {
    }

    method Insert(t: Task)
      requires Valid() && t.id !in tasks && t.Key() !in nonces
      modifies this
      ensures Valid() && Contents() == old(Contents())[t.id := Entry(t.Key(), t.content, None)]
    {
      InverseInsert(keys, nonces, t.id, t.Key());
      tasks := tasks[t.id := (t.content, None)];
      nonces := nonces[t.Key() := t.id];
      keys := keys[t.id := t.Key()];
    }

    method SaveReceipt(id: string, receipt: R) returns (ok: bool)
      requires Valid()
      modifies this
      ensures Valid() && Contents() == Save(old(Contents()), id, dump(receipt))
      ensures ok <==> id in old(Contents())
    {
      ok := id in tasks;
      if ok {
        tasks := tasks[id := (tasks[id].0, Some(receipt))];
      }
    }

    method ConfirmStoredReceipt(id: string, receipt: R) returns (ok: bool)
      requires Valid()
      ensures ok <==> Confirms(Contents(), id, dump(receipt))
    {
      ok := id in tasks && tasks[id].1.Some? && dump(tasks[id].1.value) == dump(receipt);
    }
  }

  // ----- The table -----

  datatype Row = Row(id: string, issuer: string, nonce: string, content: string, receipt: Option<string>, acked: bool)

  predicate DistinctIds(rows: seq<Row>) {
    forall i, j | 0 <= i < j < |rows| :: rows[i].id != rows[j].id
  }

  function EntryOf(r: Row): Entry {
    Entry((r.issuer, r.nonce), r.content, r.receipt)
  }

  /** The rows by their primary key. */
  function ByKey(rows: seq<Row>): (log: Log)
    ensures forall id :: id in log <==> exists i | 0 <= i < |rows| :: rows[i].id == id
    ensures DistinctIds(rows) ==> forall i | 0 <= i < |rows| :: rows[i].id in log && log[rows[i].id] == EntryOf(rows[i])
  {
    if rows == [] then map[]
    else
      var rest := rows[..|rows| - 1];
      assert forall i | 0 <= i < |rest| :: rest[i] == rows[i];
      ByKey(rest)[rows[|rows| - 1].id := EntryOf(rows[|rows| - 1])]
  }

  lemma SameById(rows: seq<Row>, log: Log)
    requires DistinctIds(rows)
    requires forall id | id in log :: exists i | 0 <= i < |rows| :: rows[i].id == id
    requires forall i | 0 <= i < |rows| :: rows[i].id in log && log[rows[i].id] == EntryOf(rows[i])
    ensures ByKey(rows) == log
  {
    forall id
      ensures id in log <==> id in ByKey(rows)
    {
    }
  }

  /** The durable journal: one table with a primary key and a unique pair of columns. */
  class SqliteJournal {
    var rows: seq<Row>

    constructor (rows: seq<Row>)
      requires DistinctIds(rows)
      ensures Valid() && this.rows == rows
    {
      this.rows := rows;
    }

    ghost predicate Valid()
      reads this
    {
      DistinctIds(rows)
    }

    function Contents(): Log
      reads this
    {
      ByKey(rows)
    }

    method FindId(id: string) returns (found: Option<nat>)
      requires Valid()
      ensures found.None? <==> id !in Contents()
      ensures found.Some? ==> found.value < |rows| && rows[found.value].id == id
    {
      for i := 0 to |rows|
        invariant forall j | 0 <= j < i :: rows[j].id != id
      {
        if rows[i].id == id {
          return Some(i);
        }
      }
      found := None;
    }

    method FindKey(key: NonceKey) returns (found: bool)
      requires Valid()
      ensures found <==> NonceUsed(Contents(), key)
    {
      for i := 0 to |rows|
        invariant forall j | 0 <= j < i :: EntryOf(rows[j]).key != key
      {
        if rows[i].issuer == key.0 && rows[i].nonce == key.1 {
          assert Contents()[rows[i].id].key == key;
          return true;
        }
      }
      found := false;
    }

    method ClaimTask(t: Task) returns (verdict: Verdict)
      requires Valid()
      modifies this
      ensures Valid() && Contents() == Claim(old(Contents()), t)
      ensures verdict == ClaimVerdict(old(Contents()), t)
    {
      var found := FindId(t.id);
      if found.Some? {
        assert Contents()[t.id] == EntryOf(rows[found.value]);
        if rows[found.value].content != t.content {
          return ReplayConflict;
        }
        return Proceed(rows[found.value].receipt);
      }
      var used := FindKey(t.Key());
      if used {
        return NonceReplay;
      }
      var row := Row(t.id, t.issuer, t.nonce, t.content, None, false);
      assert (rows + [row])[..|rows|] == rows;
      rows := rows + [row];
      verdict := Proceed(None);
    }

    method SaveReceipt(id: string, text: string) returns (ok: bool)
      requires Valid()
      modifies this
      ensures Valid() && Contents() == Save(old(Contents()), id, text)
      ensures ok <==> id in old(Contents())
    {
      var found := FindId(id);
      ok := found.Some?;
      if ok {
        ghost var before := rows;
        var row := rows[found.value].(receipt := Some(text));
        rows := rows[found.value := row];
        OneRowChanged(before, rows, found.value);
      }
    }

    /** `mark_acked`, of which the log knows nothing. */
    method MarkAcked(id: string)
      requires Valid()
      modifies this
      ensures Valid() && Contents() == old(Contents())
    {
      var found := FindId(id);
      if found.Some? {
        ghost var before := rows;
        rows := rows[found.value := rows[found.value].(acked := true)];
        OneRowChanged(before, rows, found.value);
      }
    }

    method ConfirmStoredReceipt(id: string, text: string) returns (ok: bool)
      requires Valid()
      modifies this
      ensures Valid() && Contents() == old(Contents())
      ensures ok <==> Confirms(Contents(), id, text)
    {
      var found := FindId(id);
      ok := false;
      if found.Some? {
        assert Contents()[id] == EntryOf(rows[found.value]);
        ok := rows[found.value].receipt == Some(text);
        if ok {
          MarkAcked(id);
        }
      }
    }
  }

  /** Replacing a row under its own key replaces its entry and no other. */
  lemma OneRowChanged(before: seq<Row>, after: seq<Row>, k: nat)
    requires DistinctIds(before) && k < |before| && |after| == |before|
    requires after == before[k := after[k]] && after[k].id == before[k].id
    ensures DistinctIds(after) && ByKey(after) == ByKey(before)[before[k].id := EntryOf(after[k])]
  {
    var log := ByKey(before)[before[k].id := EntryOf(after[k])];
    forall i | 0 <= i < |after|
      ensures after[i].id == before[i].id && after[i].id in log && log[after[i].id] == EntryOf(after[i])
    {
      if i != k {
        assert before[i].id != before[k].id;
      }
    }
    forall id | id in log
      ensures exists i | 0 <= i < |after| :: after[i].id == id
    {
      var i :| 0 <= i < |before| && before[i].id == id;
      assert after[i].id == id;
    }
    SameById(after, log);
  }

  /** A call on the dictionaries, answered as a caller sees it. */
  method AskMemory<R>(memory: MemoryJournal<R>, c: Call, receipts: map<string, R>) returns (a: Answer)
    requires memory.Valid()
    requires !c.ClaimCall? ==> c.text in receipts && memory.dump(receipts[c.text]) == c.text
    modifies memory
    ensures memory.Valid() && memory.Contents() == Apply(old(memory.Contents()), c)
    ensures a == AnswerTo(old(memory.Contents()), c)
  {
    match c {
      case ClaimCall(t) =>
        var conflict, replay, receipt := memory.ClaimTask(t);
        a := Claimed(if conflict then ReplayConflict else if replay then NonceReplay
                     else Proceed(if receipt.Some? then Some(memory.dump(receipt.value)) else None));
      case SaveCall(id, text) =>
        var ok := memory.SaveReceipt(id, receipts[text]);
        a := if ok then Done else Failed;
      case ConfirmCall(id, text) =>
        var ok := memory.ConfirmStoredReceipt(id, receipts[text]);
        a := if ok then Done else Failed;
    }
  }

  /** The same call on the table. */
  method AskTable(table: SqliteJournal, c: Call) returns (a: Answer)
    requires table.Valid()
    modifies table
    ensures table.Valid() && table.Contents() == Apply(old(table.Contents()), c)
    ensures a == AnswerTo(old(table.Contents()), c)
  {
    match c {
      case ClaimCall(t) =>
        var verdict := table.ClaimTask(t);
        a := Claimed(verdict);
      case SaveCall(id, text) =>
        var ok := table.SaveReceipt(id, text);
        a := if ok then Done else Failed;
      case ConfirmCall(id, text) =>
        var ok := table.ConfirmStoredReceipt(id, text);
        a := if ok then Done else Failed;
    }
  }

  /** Where the lockstep stands after some calls: `now` is the log, `given` the answers so far. */
  ghost predicate Underway(log: Log, calls: seq<Call>, i: nat, now: Log, given: seq<Answer>)
    requires i <= |calls|
  {
    Replay(now, calls[i..]) == Replay(log, calls) && given + Answers(now, calls[i..]) == Answers(log, calls)
  }

  lemma OneMore(log: Log, calls: seq<Call>, i: nat, now: Log, given: seq<Answer>)
    requires i < |calls| && Underway(log, calls, i, now, given)
    ensures Underway(log, calls, i + 1, Apply(now, calls[i]), given + [AnswerTo(now, calls[i])])
  {
    var rest := calls[i..];
    assert rest[0] == calls[i] && rest[1..] == calls[i + 1..];
    var more := Answers(Apply(now, calls[i]), calls[i + 1..]);
    assert given + ([AnswerTo(now, calls[i])] + more) == given + [AnswerTo(now, calls[i])] + more;
  }

  /** The two journals cannot be told apart: on every sequence of calls they give the same answers, and these
      are the answers of the map they both refine. */
  method InLockstep<R>(memory: MemoryJournal<R>, table: SqliteJournal, calls: seq<Call>, receipts: map<string, R>)
    returns (a: seq<Answer>, b: seq<Answer>)
    requires memory.Valid() && table.Valid() && memory.Contents() == table.Contents()
    requires forall c | c in calls && !c.ClaimCall? :: c.text in receipts && memory.dump(receipts[c.text]) == c.text
    modifies memory, table
    ensures memory.Valid() && table.Valid() && memory.Contents() == table.Contents()
    ensures table.Contents() == Replay(old(table.Contents()), calls)
    ensures a == b == Answers(old(table.Contents()), calls)
  {
    a, b := [], [];
    ghost var log := table.Contents();
    ghost var now := log;
    assert calls[0..] == calls;
    for i := 0 to |calls|
      invariant memory.Valid() && table.Valid() && memory.Contents() == now && table.Contents() == now
      invariant a == b && Underway(log, calls, i, now, a)
    {
      var x := AskMemory(memory, calls[i], receipts);
      var y := AskTable(table, calls[i]);
      OneMore(log, calls, i, now, a);
      now := Apply(now, calls[i]);
      a, b := a + [x], b + [y];
    }
    assert calls[|calls|..] == [];
  }
}
