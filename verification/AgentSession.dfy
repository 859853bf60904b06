/** `run_agent_session` against any relay: receipts are stored before they are sent, a stored receipt is the
    only one ever sent for its task, and neither reconnects nor crashes at any point change that. */
module AgentSession {
  import opened Wrappers
  import opened AgentJournal
  import ReceiptText

  /** What an operation produced: a result, or the error that makes the receipt a rejection. */
  datatype Work = Work(rejected: bool, detail: string)

  /** Receipts, their stored text, and the signer that makes them. */
  datatype Codec<!R(!new)> = Codec(dump: R -> string, load: string -> R, taskId: R -> string, rejected: R -> bool,
                                   build: (Task, Work) -> R)
  {
    ghost predicate Lawful() {
      && (forall r, s :: dump(r) == dump(s) ==> taskId(r) == taskId(s) && rejected(r) == rejected(s))
      && (forall r :: dump(load(dump(r))) == dump(r))
      && (forall t, w :: taskId(build(t, w)) == t.id && rejected(build(t, w)) == w.rejected)
    }

    /** The text is that of a receipt for this task. */
    ghost predicate TextFor(id: string, text: string) {
      exists r :: dump(r) == text && taskId(r) == id
    }
  }

  datatype Verified = Accepted | Refused | Unavailable

  /** A message of the relay; `verified` is what `verify_task_for_node` says of a task. */
  datatype Message<R> =
    | TaskMsg(task: Task, verified: Verified)
    | StateMsg(taskId: string, receipt: Option<R>)
    | AckMsg(taskId: string, confirmed: bool)
    | HeartbeatMsg
    | OtherMsg

  /** What can happen next: a message, the end of an operation, or a failure. `Lost` is any failure that leads
      to a reconnect, `Broken` any other error of the transport, `Died` the end of the process. */
  datatype Input<R> =
    | Opened(states: int)
    | Got(message: Message<R>)
    | Worked(work: Work)
    | Lost
    | Broken
    | Died

  datatype Event = Ran(id: string) | Saved(id: string, text: string) | SentReceipt(id: string, text: string)

  /** How a part of a session ends: it goes on, reconnects, fails for good, or the process is gone. */
  datatype End = Go | Retry | Stop | Dead

  // ----- What the trace and the journal promise -----

  predicate SentAfterSaved(t: seq<Event>) {
    forall j | 0 <= j < |t| && t[j].SentReceipt? :: Saved(t[j].id, t[j].text) in t[..j]
  }

  predicate WasSent(t: seq<Event>, id: string) {
    exists j | 0 <= j < |t| :: t[j].SentReceipt? && t[j].id == id
  }

  predicate NeverRerun(t: seq<Event>) {
    forall i, j | 0 <= i < j < |t| && t[i].Saved? && t[j].Ran? :: t[j].id != t[i].id
  }

  predicate SavedStays(t: seq<Event>, log: Log) {
    forall e | e in t && e.Saved? :: e.id in log && log[e.id].receipt == Some(e.text)
  }

  predicate StartStays(start: Log, t: seq<Event>, log: Log) {
    forall id | id in start && start[id].receipt.Some? ::
      id in log && log[id].receipt == start[id].receipt && Ran(id) !in t
  }

  /** All of it, from a journal `start` that existed before. */
  predicate Faithful(start: Log, t: seq<Event>, log: Log) {
    SentAfterSaved(t) && NeverRerun(t) && SavedStays(t, log) && StartStays(start, t, log)
  }

  lemma RanOn(start: Log, t: seq<Event>, log: Log, id: string)
    requires Faithful(start, t, log) && (id in log ==> log[id].receipt == None)
    ensures Faithful(start, t + [Ran(id)], log)
  {
    var u := t + [Ran(id)];
    forall i, j | 0 <= i < j < |u| && u[i].Saved? && u[j].Ran?
      ensures u[j].id != u[i].id
    {
      assert u[i] == t[i] && t[i] in t;
    }
    SentOn(t, Ran(id));
  }

  lemma SentOn(t: seq<Event>, e: Event)
    requires SentAfterSaved(t) && (e.SentReceipt? ==> Saved(e.id, e.text) in t)
    ensures SentAfterSaved(t + [e])
  {
    var u := t + [e];
    forall j | 0 <= j < |u| && u[j].SentReceipt?
      ensures Saved(u[j].id, u[j].text) in u[..j]
    {
      if j < |t| {
        assert u[..j] == t[..j];
      } else {
        assert u[..j] == t;
      }
    }
  }

  lemma SavedOn(start: Log, t: seq<Event>, log: Log, id: string, text: string)
    requires Faithful(start, t, log) && id in log
    requires log[id].receipt.None? || log[id].receipt == Some(text)
    ensures Faithful(start, t + [Saved(id, text)], Save(log, id, text))
  {
    SentOn(t, Saved(id, text));
  }

  lemma SentReceiptOn(start: Log, t: seq<Event>, log: Log, id: string, text: string)
    requires Faithful(start, t, log) && Saved(id, text) in t
    ensures Faithful(start, t + [SentReceipt(id, text)], log)
  {
    SentOn(t, SentReceipt(id, text));
  }

  lemma ClaimedOn(start: Log, t: seq<Event>, log: Log, task: Task)
    requires Faithful(start, t, log)
    ensures Faithful(start, t, Claim(log, task))
  {
  }

  /** Two receipts sent for one task are the same text, and it is the one in the journal. */
  ghost predicate OneText(t: seq<Event>, log: Log) {
    forall i, j | 0 <= i < |t| && 0 <= j < |t| && t[i].SentReceipt? && t[j].SentReceipt? && t[i].id == t[j].id ::
      t[i].text == t[j].text && t[i].id in log && log[t[i].id].receipt == Some(t[i].text)
  }

  lemma OneTextPerTask(start: Log, t: seq<Event>, log: Log)
    requires Faithful(start, t, log)
    ensures OneText(t, log)
  {
    forall i, j | 0 <= i < |t| && 0 <= j < |t| && t[i].SentReceipt? && t[j].SentReceipt? && t[i].id == t[j].id
      ensures t[i].text == t[j].text && t[i].id in log && log[t[i].id].receipt == Some(t[i].text)
    {
      assert Saved(t[i].id, t[i].text) in t[..i] && Saved(t[j].id, t[j].text) in t[..j];
    }
  }

  // ----- The receipts of a session -----

  /** The journal only holds receipts under their own task id. */
  ghost predicate StoredOk<R(!new)>(c: Codec<R>, log: Log) {
    forall id | id in log && log[id].receipt.Some? :: c.TextFor(id, log[id].receipt.value)
  }

  /** The receipts reported are pairwise for different tasks, and each is the one in the journal. */
  ghost predicate RecordedOk<R(!new)>(c: Codec<R>, receipts: seq<R>, log: Log) {
    && (forall i, j | 0 <= i < j < |receipts| :: c.taskId(receipts[i]) != c.taskId(receipts[j]))
    && (forall i | 0 <= i < |receipts| :: Confirms(log, c.taskId(receipts[i]), c.dump(receipts[i])))
  }

  function Rejections<R(!new)>(c: Codec<R>, receipts: seq<R>): nat {
    if receipts == [] then 0
    else Rejections(c, receipts[..|receipts| - 1]) + (if c.rejected(receipts[|receipts| - 1]) then 1 else 0)
  }

  ghost predicate NoneRejected<R(!new)>(c: Codec<R>, receipts: seq<R>) {
    forall i | 0 <= i < |receipts| :: !c.rejected(receipts[i])
  }

  lemma {:induction false} NoRejections<R(!new)>(c: Codec<R>, receipts: seq<R>)
    ensures Rejections(c, receipts) == 0 <==> NoneRejected(c, receipts)
  {
    if receipts != [] {
      NoRejections(c, receipts[..|receipts| - 1]);
    }
  }

  /** What a connection that began with `carried` receipts counts. */
  lemma CountedSince<R(!new)>(c: Codec<R>, receipts: seq<R>, carried: seq<R>, counted: nat)
    requires Rejections(c, receipts) == Rejections(c, carried) + counted
    ensures counted == Rejections(c, receipts) - Rejections(c, carried)
    ensures counted == Rejections(c, receipts) <==> NoneRejected(c, carried)
  {
    NoRejections(c, carried);
  }

  // ----- A relay that makes the report wrong -----

  /** The relay states one stored receipt, confirms it, and breaks the connection before the next state. */
  ghost predicate ClaimsAndBreaks<R(!new)>(c: Codec<R>, s: seq<Input<R>>) {
    && |s| >= 3 && s[0].Got? && s[0].message.StateMsg? && s[0].message.receipt.Some?
    && s[0].message.taskId == c.taskId(Stated(s))
    && s[1] == Got(AckMsg(c.taskId(Stated(s)), true)) && s[2] == Lost
  }

  ghost function Stated<R(!new)>(s: seq<Input<R>>): R
    requires s != [] && s[0].Got? && s[0].message.StateMsg? && s[0].message.receipt.Some?
  {
    s[0].message.receipt.value
  }

  /** It announces two states, breaks off after one, and on the next connection announces none. */
  ghost predicate LossScript<R(!new)>(c: Codec<R>, s: seq<Input<R>>) {
    |s| == 5 && s[0] == Opened(2) && ClaimsAndBreaks(c, s[1..]) && s[4] == Opened(0)
  }

  /** `_record_receipt`: how many rejections this adds, or the conflict it raises. */
  method RecordReceipt<R(!new)>(c: Codec<R>, receipts: seq<R>, receipt: R)
    returns (conflict: bool, now: seq<R>, added: nat)
    ensures conflict ==> exists i | 0 <= i < |receipts| ::
      c.taskId(receipts[i]) == c.taskId(receipt) && c.dump(receipts[i]) != c.dump(receipt)
    ensures !conflict && (exists i | 0 <= i < |receipts| :: c.taskId(receipts[i]) == c.taskId(receipt)) ==>
      now == receipts && added == 0
    ensures !conflict && (forall i | 0 <= i < |receipts| :: c.taskId(receipts[i]) != c.taskId(receipt)) ==>
      now == receipts + [receipt] && added == if c.rejected(receipt) then 1 else 0
  {
    now, added, conflict := receipts, 0, false;
    for i := 0 to |receipts|
      invariant forall k | 0 <= k < i :: c.taskId(receipts[k]) != c.taskId(receipt)
    {
      if c.taskId(receipts[i]) == c.taskId(receipt) {
        conflict := c.dump(receipts[i]) != c.dump(receipt);
        return;
      }
    }
    now := receipts + [receipt];
    added := if c.rejected(receipt) then 1 else 0;
  }

  /** Recording a receipt that the journal confirms never conflicts. */
  lemma RecordKeeps<R(!new)>(c: Codec<R>, receipts: seq<R>, log: Log, r: R)
    requires RecordedOk(c, receipts, log) && Confirms(log, c.taskId(r), c.dump(r))
    ensures forall i | 0 <= i < |receipts| && c.taskId(receipts[i]) == c.taskId(r) :: c.dump(receipts[i]) == c.dump(r)
    ensures (forall i | 0 <= i < |receipts| :: c.taskId(receipts[i]) != c.taskId(r)) ==>
              RecordedOk(c, receipts + [r], log)
    ensures Rejections(c, receipts + [r]) == Rejections(c, receipts) + (if c.rejected(r) then 1 else 0)
  {
    assert (receipts + [r])[..|receipts|] == receipts;
  }

  /** Receipts once recorded stay confirmed: claims and repeated saves change no stored receipt. */
  lemma RecordedStays<R(!new)>(c: Codec<R>, receipts: seq<R>, log: Log, after: Log)
    requires RecordedOk(c, receipts, log)
    requires forall id | id in log && log[id].receipt.Some? :: id in after && after[id].receipt == log[id].receipt
    ensures RecordedOk(c, receipts, after)
  {
  }

  // ----- The session -----

  /** The agent process. The journal is durable; `receipts` and `pending` are lost with the process. */
  class Agent<R(!new)> {
    const codec: Codec<R>
    const journal: SqliteJournal
    ghost const start: Log
    var trace: seq<Event>
    var script: seq<Input<R>>
    var pending: seq<Message<R>>
    var receipts: seq<R>

    constructor (codec: Codec<R>, journal: SqliteJournal, script: seq<Input<R>>)
      requires codec.Lawful() && journal.Valid() && StoredOk(codec, journal.Contents())
      ensures Valid() && this.codec == codec && this.journal == journal && this.script == script
      ensures start == journal.Contents() && trace == [] && receipts == []
    {
      this.codec, this.journal, this.script, this.start := codec, journal, script, journal.Contents();
      trace, pending, receipts := [], [], [];
    }

    ghost predicate Valid()
      reads this, journal
    {
      && journal.Valid() && codec.Lawful()
      && Faithful(start, trace, journal.Contents()) && StoredOk(codec, journal.Contents())
      && RecordedOk(codec, receipts, journal.Contents())
    }

    /** The session has recorded a receipt for the task. */
    predicate HasReceipt(id: string)
      reads this
    {
      exists i | 0 <= i < |receipts| :: codec.taskId(receipts[i]) == id
    }

    /** What is still to be read bounds the session. */
    function Weight(): nat
      reads this
    {
      2 * |script| + |pending|
    }

    method Receive() returns (i: Input<R>)
      modifies this`script
      ensures i == if old(script) == [] then Lost else old(script)[0]
      ensures script == if old(script) == [] then [] else old(script)[1..]
    {
      if script == [] {
        return Lost;
      }
      i := script[0];
      script := script[1..];
    }

    /** Whether the process dies here. */
    method Dies() returns (dead: bool)
      modifies this`script
      ensures |script| <= |old(script)|
      ensures dead <==> old(script) != [] && old(script)[0].Died?
      ensures !dead ==> script == old(script)
    {
      dead := script != [] && script[0].Died?;
      if dead {
        script := script[1..];
      }
    }

    /** Whether a send goes through: the connection may break under it. */
    method Sends() returns (e: End)
      modifies this`script
      ensures |script| <= |old(script)|
      ensures old(script) != [] && old(script)[0].Lost? ==> e == Retry
      ensures !(old(script) != [] && (old(script)[0].Lost? || old(script)[0].Broken?)) ==>
                e == Go && script == old(script)
      ensures e == Go || e == Retry || e == Stop
    {
      e := Go;
      if script != [] && (script[0].Lost? || script[0].Broken?) {
        e := if script[0].Lost? then Retry else Stop;
        script := script[1..];
      }
    }

    static function EndOf(i: Input<R>): (e: End)
      ensures e != Go
    {
      if i.Lost? then Retry else if i.Died? then Dead else Stop
    }

    /** `_confirm_relay_receipt`. */
    method ConfirmRelayReceipt(receipt: R) returns (e: End)
      modifies this`script, this`pending
      ensures Weight() <= old(Weight()) && |script| <= |old(script)|
      ensures old(script) != [] && old(script)[0] == Got(AckMsg(codec.taskId(receipt), true)) ==>
                e == Go && script == old(script)[1..] && pending == old(pending)
    {
      while true
        invariant Weight() <= old(Weight()) && |script| <= |old(script)|
        invariant (old(script) != [] && old(script)[0] == Got(AckMsg(codec.taskId(receipt), true)) ==>
                     script == old(script) && pending == old(pending))
        decreases |script|
      {
        var i := Receive();
        if !i.Got? {
          e := EndOf(i);
          return;
        }
        match i.message {
          case AckMsg(id, confirmed) =>
            if confirmed && id == codec.taskId(receipt) {
              return Go;
            }
            return Stop;
          case TaskMsg(_, _) => pending := pending + [i.message];
          case StateMsg(_, _) => pending := pending + [i.message];
          case HeartbeatMsg =>
          case OtherMsg => return Stop;
        }
      }
    }

    /** Records a receipt the journal holds; the conflict `_record_receipt` checks for cannot occur. */
    method Record(r: R) returns (added: nat)
      requires Valid() && Confirms(journal.Contents(), codec.taskId(r), codec.dump(r))
      modifies this`receipts
      ensures Valid() && HasReceipt(codec.taskId(r))
      ensures Rejections(codec, receipts) == Rejections(codec, old(receipts)) + added
      ensures old(receipts) <= receipts
      ensures old(receipts) == [] ==> receipts == [r]
    {
      RecordKeeps(codec, receipts, journal.Contents(), r);
      var conflict, now, n := RecordReceipt(codec, receipts, r);
      if conflict {
        assert false;
      }
      assert now == receipts + [r] ==> now[|receipts|] == r;
      receipts := now;
      added := n;
    }

    /** A receipt state the relay claims to have (lines 504-520 and 639-654): it must be the journal's. */
    method TakeState(taskId: string, receipt: Option<R>, checkId: bool) returns (e: End, added: nat)
      requires Valid()
      modifies this`script, this`pending, this`receipts, journal
      ensures Valid() && journal.Contents() == old(journal.Contents())
      ensures Rejections(codec, receipts) == Rejections(codec, old(receipts)) + added
      ensures old(receipts) <= receipts && Weight() <= old(Weight()) && |script| <= |old(script)|
      ensures (receipt.Some? && codec.taskId(receipt.value) == taskId && old(receipts) == []
               && Confirms(journal.Contents(), taskId, codec.dump(receipt.value))
               && old(script) != [] && old(script)[0] == Got(AckMsg(taskId, true)) ==>
                 e == Go && receipts == [receipt.value] && script == old(script)[1..] && pending == old(pending))
    {
      added := 0;
      if receipt.None? || (checkId && codec.taskId(receipt.value) != taskId) {
        return Stop, 0;
      }
      var r := receipt.value;
      var ok := journal.ConfirmStoredReceipt(codec.taskId(r), codec.dump(r));
      if !ok {
        return Stop, 0;
      }
      added := Record(r);
      e := ConfirmRelayReceipt(r);
    }

    /** `run_with_keepalive`: tasks that arrive meanwhile are queued, everything else is dropped, and an error
        of the transport is taken for an error of the operation. */
    method Operate(t: Task) returns (e: End, work: Work)
      modifies this`script, this`pending, this`trace
      ensures Weight() <= old(Weight()) && trace == old(trace) + [Ran(t.id)]
    {
      trace := trace + [Ran(t.id)];
      work := Work(true, "");
      while true
        invariant Weight() <= old(Weight()) && trace == old(trace) + [Ran(t.id)]
        decreases |script|
      {
        var i := Receive();
        match i {
          case Worked(w) => return Go, w;
          case Broken => return Go, Work(true, "invalid_relay_json");
          case Got(m) =>
            if m.TaskMsg? {
              pending := pending + [m];
            }
          case _ =>
            e := EndOf(i);
            return;
        }
      }
    }

    /** Lines 560-619: the stored receipt, or a new one for which the operation runs. */
    method MakeReceipt(t: Task, stored: Option<string>) returns (e: End, r: R)
      requires Valid() && t.id in journal.Contents() && journal.Contents()[t.id].receipt == stored
      modifies this`script, this`pending, this`trace
      ensures Valid() && Weight() <= old(Weight())
      ensures codec.taskId(r) == t.id
      ensures stored.Some? ==> e == Go && codec.dump(r) == stored.value && trace == old(trace)
    {
      if stored.Some? {
        e, r := Go, codec.load(stored.value);
        assert codec.TextFor(t.id, stored.value);
        return;
      }
      RanOn(start, trace, journal.Contents(), t.id);
      var work;
      e, work := Operate(t);
      r := codec.build(t, work);
    }

    /** Line 620: the receipt is stored, for the first time or again. */
    method StoreReceipt(t: Task, r: R)
      requires Valid() && codec.taskId(r) == t.id && t.id in journal.Contents()
      requires (journal.Contents()[t.id].receipt.None?
                || journal.Contents()[t.id].receipt == Some(codec.dump(r)))
      modifies this`trace, journal
      ensures Valid() && trace == old(trace) + [Saved(t.id, codec.dump(r))]
      ensures Saved(t.id, codec.dump(r)) in trace
      ensures Confirms(journal.Contents(), t.id, codec.dump(r))
    {
      ghost var log := journal.Contents();
      SavedOn(start, trace, log, t.id, codec.dump(r));
      var ok := journal.SaveReceipt(t.id, codec.dump(r));
      RecordedStays(codec, receipts, log, journal.Contents());
      StoredSaved(codec, log, t.id, r);
      trace := trace + [Saved(t.id, codec.dump(r))];
    }

    /** A receipt goes out, or is cut off on the way: either way the relay may have it. */
    method SendReceipt(id: string, text: string) returns (e: End)
      requires Valid() && Saved(id, text) in trace
      modifies this`script, this`trace
      ensures Valid() && trace == old(trace) + [SentReceipt(id, text)] && WasSent(trace, id)
      ensures |script| <= |old(script)| && e != Dead
    {
      SentReceiptOn(start, trace, journal.Contents(), id, text);
      trace := trace + [SentReceipt(id, text)];
      assert trace[|old(trace)|] == SentReceipt(id, text);
      e := Sends();
    }

    /** Lines 620-621: the receipt is in the journal before it is sent. Only a process that dies in between sends
        nothing; a connection that breaks under the send leads to a reconnect. */
    method SaveAndSend(t: Task, r: R) returns (e: End)
      requires Valid() && codec.taskId(r) == t.id && t.id in journal.Contents()
      requires (journal.Contents()[t.id].receipt.None?
                || journal.Contents()[t.id].receipt == Some(codec.dump(r)))
      modifies this`script, this`trace, journal
      ensures Valid() && Weight() <= old(Weight())
      ensures Confirms(journal.Contents(), t.id, codec.dump(r))
      ensures e != Dead ==> WasSent(trace, t.id)
      ensures trace == old(trace) + [Saved(t.id, codec.dump(r))]
                       + (if e == Dead then [] else [SentReceipt(t.id, codec.dump(r))])
    {
      StoreReceipt(t, r);
      var dead := Dies();
      if dead {
        return Dead;
      }
      e := SendReceipt(t.id, codec.dump(r));
    }

    /** `mark_acked` changes nothing a session relies on. */
    method MarkAcked(id: string)
      requires Valid()
      modifies journal
      ensures Valid() && journal.Contents() == old(journal.Contents())
    {
      journal.MarkAcked(id);
    }

    /** An acknowledged receipt is marked in the journal and recorded. */
    method RecordAcked(t: Task, r: R) returns (added: nat)
      requires Valid() && codec.taskId(r) == t.id && Confirms(journal.Contents(), t.id, codec.dump(r))
      modifies this`receipts, journal
      ensures Valid() && journal.Contents() == old(journal.Contents())
      ensures Rejections(codec, receipts) == Rejections(codec, old(receipts)) + added
      ensures old(receipts) <= receipts && HasReceipt(t.id)
    {
      MarkAcked(t.id);
      added := Record(r);
    }

    /** The acknowledgement (lines 630-638). */
    method TakeAck(t: Task, r: R) returns (e: End, added: nat)
      requires Valid() && codec.taskId(r) == t.id && Confirms(journal.Contents(), t.id, codec.dump(r))
      modifies this`script, this`pending, this`receipts, journal
      ensures Valid() && journal.Contents() == old(journal.Contents())
      ensures |script| <= |old(script)| && Weight() <= old(Weight())
      ensures Rejections(codec, receipts) == Rejections(codec, old(receipts)) + added
      ensures old(receipts) <= receipts && HasReceipt(t.id)
    {
      added := RecordAcked(t, r);
      e := ConfirmRelayReceipt(r);
    }

    /** One answer while waiting for an acknowledgement; `done` once it has come. */
    method TakeAnswer(t: Task, r: R, m: Message<R>) returns (e: End, done: bool, added: nat)
      requires Valid() && codec.taskId(r) == t.id && Confirms(journal.Contents(), t.id, codec.dump(r))
      modifies this`script, this`pending, this`receipts, journal
      ensures Valid() && journal.Contents() == old(journal.Contents())
      ensures |script| <= |old(script)| && Weight() <= old(Weight()) + 1
      ensures Rejections(codec, receipts) == Rejections(codec, old(receipts)) + added
      ensures old(receipts) <= receipts && (done && e == Go ==> HasReceipt(t.id))
    {
      e, done, added := Go, false, 0;
      match m {
        case AckMsg(id, _) =>
          if id != codec.taskId(r) {
            return Stop, true, 0;
          }
          done := true;
          e, added := TakeAck(t, r);
        case StateMsg(id, receipt) => e, added := TakeState(id, receipt, false);
        case TaskMsg(_, _) => pending := pending + [m];
        case HeartbeatMsg =>
        case OtherMsg => e := Stop;
      }
    }

    /** Lines 622-663: wait until the relay acknowledges the receipt. */
    method AwaitAck(t: Task, r: R) returns (e: End, added: nat)
      requires Valid() && codec.taskId(r) == t.id && Confirms(journal.Contents(), t.id, codec.dump(r))
      modifies this`script, this`pending, this`receipts, journal
      ensures Valid() && Weight() <= old(Weight())
      ensures Rejections(codec, receipts) == Rejections(codec, old(receipts)) + added
      ensures old(receipts) <= receipts && (e == Go ==> HasReceipt(t.id))
    {
      added := 0;
      while true
        invariant Valid() && Weight() <= old(Weight())
        invariant Confirms(journal.Contents(), t.id, codec.dump(r))
        invariant Rejections(codec, receipts) == Rejections(codec, old(receipts)) + added
        invariant old(receipts) <= receipts
        decreases |script|
      {
        var i := Receive();
        if !i.Got? {
          e := EndOf(i);
          return;
        }
        var done, n;
        e, done, n := TakeAnswer(t, r, i.message);
        added := added + n;
        if done || e != Go {
          return;
        }
      }
    }

    /** Lines 557-559: the task is acknowledged, unless the process dies first or the connection breaks under it. */
    method AcknowledgeTask() returns (e: End)
      modifies this`script
      ensures |script| <= |old(script)|
      ensures old(script) != [] && old(script)[0].Died? ==> e == Dead
      ensures old(script) != [] && old(script)[0].Lost? ==> e == Retry
    {
      var dead := Dies();
      if dead {
        return Dead;
      }
      e := Sends();
    }

    /** Lines 620-663: the receipt is stored and sent, and its acknowledgement awaited. */
    method DeliverReceipt(t: Task, r: R) returns (e: End, added: nat)
      requires Valid() && codec.taskId(r) == t.id && t.id in journal.Contents()
      requires (journal.Contents()[t.id].receipt.None?
                || journal.Contents()[t.id].receipt == Some(codec.dump(r)))
      modifies this`script, this`pending, this`trace, this`receipts, journal
      ensures Valid() && Weight() <= old(Weight())
      ensures Rejections(codec, receipts) == Rejections(codec, old(receipts)) + added
      ensures old(receipts) <= receipts
      ensures e == Go ==> HasReceipt(t.id) && WasSent(trace, t.id)
    {
      added := 0;
      e := SaveAndSend(t, r);
      if e != Go {
        return;
      }
      e, added := AwaitAck(t, r);
    }

    /** Lines 557-663, for a task the journal has accepted. */
    method AnswerTask(t: Task, stored: Option<string>) returns (e: End, added: nat)
      requires Valid() && t.id in journal.Contents() && journal.Contents()[t.id].receipt == stored
      modifies this`script, this`pending, this`trace, this`receipts, journal
      ensures Valid() && Weight() <= old(Weight())
      ensures Rejections(codec, receipts) == Rejections(codec, old(receipts)) + added
      ensures old(receipts) <= receipts
      ensures e == Go ==> HasReceipt(t.id) && WasSent(trace, t.id)
    {
      added := 0;
      e := AcknowledgeTask();
      if e != Go {
        return;
      }
      var r;
      e, r := MakeReceipt(t, stored);
      if e != Go {
        return;
      }
      e, added := DeliverReceipt(t, r);
    }

    /** A task message (lines 546-556): it is verified and claimed before anything else happens. */
    method TakeTask(t: Task, verified: Verified) returns (e: End, added: nat)
      requires Valid()
      modifies this`script, this`pending, this`trace, this`receipts, journal
      ensures Valid() && Weight() <= old(Weight())
      ensures Rejections(codec, receipts) == Rejections(codec, old(receipts)) + added
      ensures old(receipts) <= receipts
      ensures e == Go ==> HasReceipt(t.id) && WasSent(trace, t.id)
      ensures !(verified.Accepted? && ClaimVerdict(old(journal.Contents()), t).Proceed?) ==>
        e != Go && trace == old(trace) && journal.Contents() == old(journal.Contents())
    {
      added := 0;
      if !verified.Accepted? {
        return (if verified.Unavailable? then Retry else Stop), 0;
      }
      ghost var log := journal.Contents();
      ClaimedOn(start, trace, log, t);
      var verdict := journal.ClaimTask(t);
      RecordedStays(codec, receipts, log, journal.Contents());
      if !verdict.Proceed? {
        return Stop, 0;
      }
      e, added := AnswerTask(t, verdict.receipt);
    }

    /** The next message: a queued one first. */
    method NextMessage() returns (e: End, m: Message<R>)
      modifies this`script, this`pending
      ensures e == Go ==> Weight() < old(Weight())
      ensures Weight() <= old(Weight())
      ensures old(pending) == [] && old(script) != [] ==> script == old(script)[1..] && pending == []
      ensures old(pending) == [] && old(script) != [] && old(script)[0].Got? ==> e == Go && m == old(script)[0].message
      ensures old(pending) == [] && old(script) != [] && old(script)[0].Lost? ==> e == Retry
    {
      e, m := Go, OtherMsg;
      if pending != [] {
        m, pending := pending[0], pending[1..];
        return;
      }
      var i := Receive();
      if i.Got? {
        m := i.message;
      } else {
        e := EndOf(i);
      }
    }

    /** The relay is about to state a receipt that the journal holds, and to break off. */
    ghost predicate AboutToBreak(s: seq<Input<R>>)
      reads this, journal
    {
      receipts == [] && Holds(s)
    }

    /** One declared receipt state. */
    method TakeNextState() returns (e: End, added: nat)
      requires Valid()
      modifies this`script, this`pending, this`receipts, journal
      ensures Valid() && journal.Contents() == old(journal.Contents()) && Weight() <= old(Weight())
      ensures Rejections(codec, receipts) == Rejections(codec, old(receipts)) + added && old(receipts) <= receipts
      ensures (old(AboutToBreak(script)) && old(pending) == [] ==>
                 e == Go && receipts == [Stated(old(script))] && script == old(script)[2..] && pending == [])
      ensures (old(pending) == [] && old(script) != [] && old(script)[0] == Lost ==>
                 e == Retry && receipts == old(receipts) && script == old(script)[1..])
    {
      var m;
      e, m := NextMessage();
      if e != Go {
        return e, 0;
      }
      if !m.StateMsg? {
        return Stop, 0;
      }
      e, added := TakeState(m.taskId, m.receipt, true);
    }

    /** The declared receipt states (lines 493-520). */
    method TakeStates(count: nat) returns (e: End, added: nat)
      requires Valid()
      modifies this`script, this`pending, this`receipts, journal
      ensures Valid() && journal.Contents() == old(journal.Contents()) && Weight() <= old(Weight())
      ensures Rejections(codec, receipts) == Rejections(codec, old(receipts)) + added && old(receipts) <= receipts
      ensures (old(AboutToBreak(script)) && old(pending) == [] && count > 1 ==>
                 e == Retry && receipts == [Stated(old(script))] && script == old(script)[3..])
      ensures count == 0 ==> e == Go && added == 0 && receipts == old(receipts) && script == old(script)
    {
      added := 0;
      ghost var breaks := AboutToBreak(script) && pending == [] && count > 1;
      for k := 0 to count
        invariant Valid() && journal.Contents() == old(journal.Contents()) && Weight() <= old(Weight())
        invariant Rejections(codec, receipts) == Rejections(codec, old(receipts)) + added && old(receipts) <= receipts
        invariant k == 0 ==> added == 0 && receipts == old(receipts) && script == old(script) && pending == old(pending)
        invariant breaks ==> k <= 1 && pending == []
        invariant breaks && k == 1 ==> receipts == [Stated(old(script))] && script == old(script)[2..]
      {
        var n;
        e, n := TakeNextState();
        added := added + n;
        if e != Go {
          return;
        }
      }
      e := Go;
    }

    /** Challenge, authentication and the declared number of receipt states (lines 466-492). */
    method Handshake() returns (e: End, states: nat)
      modifies this`script
      ensures |script| <= |old(script)| && (e == Go ==> states <= 1000)
      ensures old(script) != [] ==> script == old(script)[1..]
      ensures old(script) != [] && old(script)[0].Opened? && 0 <= old(script)[0].states <= 1000 ==>
                e == Go && states == old(script)[0].states
    {
      states := 0;
      var i := Receive();
      if !i.Opened? {
        e := EndOf(i);
        return;
      }
      if !(0 <= i.states <= 1000) {
        return Stop, 0;
      }
      return Go, i.states;
    }

    /** The messages of an authenticated connection, until enough receipts are recorded (lines 521-663). */
    method Serve(expected: nat) returns (e: End, rejected: nat)
      requires Valid()
      modifies this`script, this`pending, this`trace, this`receipts, journal
      ensures Valid() && Weight() <= old(Weight())
      ensures e == Go ==> |receipts| >= expected
      ensures Rejections(codec, receipts) == Rejections(codec, old(receipts)) + rejected && old(receipts) <= receipts
      ensures |old(receipts)| >= expected ==>
                e == Go && rejected == 0 && receipts == old(receipts) && script == old(script)
    {
      e, rejected := Go, 0;
      while |receipts| < expected
        invariant Valid() && Weight() <= old(Weight()) && e == Go
        invariant Rejections(codec, receipts) == Rejections(codec, old(receipts)) + rejected
                  && old(receipts) <= receipts
        invariant |old(receipts)| >= expected ==> rejected == 0 && receipts == old(receipts) && script == old(script)
        decreases Weight()
      {
        var m;
        e, m := NextMessage();
        if e != Go {
          return;
        }
        var n := 0;
        match m {
          case StateMsg(id, receipt) => e, n := TakeState(id, receipt, true);
          case TaskMsg(t, verified) => e, n := TakeTask(t, verified);
          case _ =>
        }
        rejected := rejected + n;
        if e != Go {
          return;
        }
      }
    }

    /** `_run_authenticated_session`. */
    method Session(expected: nat) returns (e: End, rejected: nat)
      requires Valid()
      modifies this`script, this`pending, this`trace, this`receipts, journal
      ensures Valid() && |script| <= |old(script)|
      ensures e == Go ==> |receipts| >= expected
      ensures Rejections(codec, receipts) == Rejections(codec, old(receipts)) + rejected && old(receipts) <= receipts
      ensures (old(script) != [] && old(script)[0] == Opened(2) && old(AboutToBreak(script[1..])) ==>
                 e == Retry && receipts == [Stated(old(script)[1..])] && script == old(script)[4..])
      ensures (old(script) != [] && old(script)[0] == Opened(0) && |old(receipts)| >= expected ==>
                 e == Go && rejected == 0 && receipts == old(receipts))
    {
      pending := [];
      rejected := 0;
      var states;
      e, states := Handshake();
      if e != Go {
        return;
      }
      e, rejected := TakeStates(states);
      if e != Go {
        return;
      }
      var n;
      e, n := Serve(expected);
      rejected := rejected + n;
    }

    /** The reconnect loop (lines 697-735). A connection that breaks adds nothing to `rejected`: what it counted is
        lost with the exception, so the sum is the count of the last connection. */
    method Reconnect(expected: nat, reconnects: nat)
      returns (e: End, rejected: nat, connections: nat, ghost carried: seq<R>)
      requires Valid() && receipts == []
      modifies this`script, this`pending, this`trace, this`receipts, journal
      ensures Valid() && e != Retry && 1 <= connections <= reconnects + 1
      ensures e == Go ==> |receipts| >= expected && Rejections(codec, receipts) == Rejections(codec, carried) + rejected
      ensures carried <= receipts && (connections == 1 ==> carried == [])
      ensures (old(LossScript(codec, script) && Holds(script[1..])) && expected == 1 && reconnects > 0 ==>
                 e == Go && connections == 2 && carried == receipts == [Stated(old(script)[1..])])
    {
      connections := 0;
      ghost var loses := LossScript(codec, script) && Holds(script[1..]) && expected == 1 && reconnects > 0;
      while true
        invariant Valid() && connections <= reconnects
        invariant connections == 0 ==> receipts == [] && script == old(script)
        invariant loses && connections == 0 ==> Holds(script[1..])
        invariant loses ==> connections <= 1
        invariant loses && connections == 1 ==>
                    receipts == [Stated(old(script)[1..])] && script != [] && script[0] == Opened(0)
        decreases reconnects - connections
      {
        connections := connections + 1;
        carried := receipts;
        e, rejected := Session(expected);
        if e != Retry {
          return;
        }
        if connections > reconnects {
          e := Stop;
          return;
        }
      }
    }

    /** `run_agent_session`: a report, or how the run ended without one. `carried` are the receipts the last
        connection began with: the report counts the rejections recorded since then, so it is right exactly when
        no connection that broke had recorded one. */
    method RunAgent(expected: nat, reconnects: nat)
      returns (e: End, rejected: nat, connections: nat, ghost carried: seq<R>)
      requires Valid()
      modifies this`script, this`pending, this`trace, this`receipts, journal
      ensures Valid() && e != Retry
      ensures 1 <= connections <= reconnects + 1
      ensures e == Go ==> |receipts| >= expected && RecordedOk(codec, receipts, journal.Contents())
      ensures carried <= receipts && (connections == 1 ==> carried == [])
      ensures e == Go ==> rejected == Rejections(codec, receipts) - Rejections(codec, carried)
      ensures e == Go ==> (rejected == Rejections(codec, receipts) <==> NoneRejected(codec, carried))
      ensures (old(LossScript(codec, script) && Holds(script[1..])) && expected == 1 && reconnects > 0 ==>
                 e == Go && connections == 2 && carried == receipts == [Stated(old(script)[1..])])
    {
      receipts := [];
      e, rejected, connections, carried := Reconnect(expected, reconnects);
      if e == Go {
        CountedSince(codec, receipts, carried, rejected);
      }
    }

    /** The journal holds the receipt the relay is about to state. */
    ghost predicate Holds(s: seq<Input<R>>)
      reads this, journal
    {
      && journal.Valid() && ClaimsAndBreaks(codec, s)
      && Confirms(journal.Contents(), codec.taskId(Stated(s)), codec.dump(Stated(s)))
    }

    /** One process life after another on the same journal, each ended by a report, an error or a crash: over all
        of them one text is sent per task, the stored one. */
    method Lives(runs: seq<(nat, nat)>)
      requires Valid()
      modifies this`script, this`pending, this`trace, this`receipts, journal
      ensures Faithful(start, trace, journal.Contents()) && OneText(trace, journal.Contents())
    {
      for k := 0 to |runs|
        invariant Valid()
      {
        var e, rejected, connections, carried := RunAgent(runs[k].0, runs[k].1);
      }
      OneTextPerTask(start, trace, journal.Contents());
    }
  }

  function Breaking<R(!new)>(id: string, r: R): seq<Input<R>> {
    [Opened(2)] + [Got(StateMsg(id, Some(r))), Got(AckMsg(id, true)), Lost] + [Opened(0)]
  }

  lemma BreakingIsLoss<R(!new)>(c: Codec<R>, id: string, r: R)
    requires c.taskId(r) == id
    ensures LossScript(c, Breaking(id, r)) && Stated(Breaking(id, r)[1..]) == r
  {
    var s := Breaking(id, r);
    assert s[1..][0] == Got(StateMsg(id, Some(r))) && s[1..][1] == Got(AckMsg(id, true)) && s[1..][2] == Lost;
  }

  /** A journal that holds one receipt. */
  method JournalOf<R(!new)>(codec: Codec<R>, t: Task, r: R) returns (journal: SqliteJournal)
    requires codec.taskId(r) == t.id
    ensures fresh(journal) && journal.Valid() && StoredOk(codec, journal.Contents())
    ensures Confirms(journal.Contents(), t.id, codec.dump(r))
  {
    journal := new SqliteJournal([]);
    var verdict := journal.ClaimTask(t);
    StoredSaved(codec, journal.Contents(), t.id, r);
    var ok := journal.SaveReceipt(t.id, codec.dump(r));
  }

  /** The report can be wrong: on a journal that holds one rejected receipt, a relay that states it, breaks off and
      then has nothing more to state gets a report of no rejection beside that very receipt. */
  method LostRejection<R(!new)>(codec: Codec<R>, t: Task, r: R) returns (agent: Agent<R>, rejected: nat)
    requires codec.Lawful() && codec.taskId(r) == t.id && codec.rejected(r)
    ensures agent.codec == codec && agent.receipts == [r] && Rejections(codec, agent.receipts) == 1 && rejected == 0
  {
    var journal := JournalOf(codec, t, r);
    BreakingIsLoss(codec, t.id, r);
    agent := new Agent<R>(codec, journal, Breaking(t.id, r));
    var e, connections;
    ghost var carried;
    e, rejected, connections, carried := agent.RunAgent(1, 1);
    assert [r][..0] == [];
  }

  /** The codec of the program: receipts are JSON objects, stored as canonical text. */
  function JsonCodec(build: (Task, Work) -> ReceiptText.Receipt): Codec<ReceiptText.Receipt> {
    Codec((r: ReceiptText.Receipt) => ReceiptText.Dump(r), (s: string) => ReceiptText.Load(s),
          (r: ReceiptText.Receipt) => ReceiptText.TaskId(r), (r: ReceiptText.Receipt) => ReceiptText.Rejected(r), build)
  }

  /** It is lawful as soon as the signer copies the task's id and the status into the receipt. */
  lemma JsonCodecLawful(build: (Task, Work) -> ReceiptText.Receipt)
    requires forall t, w :: ReceiptText.TaskId(build(t, w)) == t.id && ReceiptText.Rejected(build(t, w)) == w.rejected
    ensures JsonCodec(build).Lawful()
  {
    ReceiptText.TextLaws();
    FieldsAre(build);
  }

  /** The signer does: the codec of the program is lawful whatever else it puts into a receipt. */
  lemma SignerCodecLawful(fields: (Task, Work) -> ReceiptText.Fields)
    requires forall t, w :: fields(t, w).taskId == t.id && (fields(t, w).status == "rejected" <==> w.rejected)
    ensures JsonCodec((t: Task, w: Work) => ReceiptText.BuildReceipt(fields(t, w))).Lawful()
  {
    var build := (t: Task, w: Work) => ReceiptText.BuildReceipt(fields(t, w));
    forall t, w
      ensures ReceiptText.TaskId(build(t, w)) == t.id && ReceiptText.Rejected(build(t, w)) == w.rejected
    {
      ReceiptText.BuiltFields(fields(t, w));
    }
    JsonCodecLawful(build);
  }

  lemma FieldsAre(build: (Task, Work) -> ReceiptText.Receipt)
    ensures var c := JsonCodec(build);
      && c.build == build
      && (forall r :: c.dump(r) == ReceiptText.Dump(r) && c.taskId(r) == ReceiptText.TaskId(r)
                      && c.rejected(r) == ReceiptText.Rejected(r))
      && (forall s :: c.load(s) == ReceiptText.Load(s))
  {
  }

  lemma StoredSaved<R(!new)>(c: Codec<R>, log: Log, id: string, r: R)
    requires StoredOk(c, log) && c.taskId(r) == id
    ensures StoredOk(c, Save(log, id, c.dump(r)))
  {
    assert c.TextFor(id, c.dump(r));
  }
}
