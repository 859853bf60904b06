/** One observer: its durable cursor, the bounded reader, and what it does with each event. */
module Observation {
  import opened Wrappers
  import opened Text
  import opened LiveProtocol
  import opened LiveSchema
  import Utf8

  const MAX_SSE_RESPONSE_BYTES: nat := 1024 * 1024
  const MAX_ARTIFACT_BYTES: nat := 8 * 1024 * 1024
  const MAX_OBSERVATION_EVENTS: nat := 10_000
  const MAX_OBSERVATION_ARTIFACT_BYTES: nat := 64 * 1024 * 1024
  const READ_SIZE: nat := 64 * 1024

  datatype ObservationError =
    | CursorRollback | CursorConflict | WrongSession | SequenceGap | HashChainBroken | EventHashMismatch
    | ArtifactMissing | ArtifactHashMismatch | BundleHashMismatch | ObservationBundleMismatch | SessionUnavailable
    | StreamRefused | SchemaRefused | ObservationTimeout | LiveStreamTooLarge | EventLimitExceeded | ArtifactTooLarge
    | ArtifactBudgetExceeded

  /** The errors that only say a configured limit was reached. */
  predicate IsLimit(e: ObservationError) {
    e.ObservationTimeout? || e.LiveStreamTooLarge? || e.EventLimitExceeded? || e.ArtifactTooLarge?
    || e.ArtifactBudgetExceeded?
  }

  // ---------------------------------------------------------------- the durable cursor

  datatype CursorRow = CursorRow(sequence: nat, head: string, count: nat)

  type CursorKey = (string, string)

  /** `save`: rows move forward, and a row that stays in place keeps its head. */
  function SaveRow(row: Option<CursorRow>, next: CursorRow): Result<CursorRow, ObservationError> {
    if row.Some? && next.sequence < row.value.sequence then Err(CursorRollback)
    else if row.Some? && next.sequence == row.value.sequence && next.head != row.value.head then Err(CursorConflict)
    else Ok(next)
  }

  class ObservationCursorStore {
    var rows: map<CursorKey, CursorRow>

    constructor ()
      ensures rows == map[]
    {
      rows := map[];
    }

    function Get(key: CursorKey): Option<CursorRow>
      reads this
    {
      if key in rows then Some(rows[key]) else None
    }

    method Save(key: CursorKey, next: CursorRow) returns (r: Result<CursorRow, ObservationError>)
      modifies this
      ensures r == SaveRow(old(Get(key)), next)
      ensures rows == if r.Ok? then old(rows)[key := next] else old(rows)
      ensures key in old(rows) ==> key in rows && old(rows)[key].sequence <= rows[key].sequence
    {
      if key in rows && next.sequence < rows[key].sequence {
        return Err(CursorRollback);
      }
      if key in rows && next.sequence == rows[key].sequence && next.head != rows[key].head {
        return Err(CursorConflict);
      }
      rows := rows[key := next];
      return Ok(next);
    }
  }

  // ---------------------------------------------------------------- the bounded reader

  /** A response body that arrives in pieces: a read returns some of what is left, and nothing only at the end. */
  class StreamReader {
    var unread: bytes
    ghost var taken: nat

    constructor (body: bytes)
      ensures unread == body && taken == 0
    {
      unread := body;
      taken := 0;
    }

    method Read(n: nat) returns (chunk: bytes)
      requires n > 0
      modifies this
      ensures |chunk| <= n && chunk <= old(unread) && unread == old(unread)[|chunk|..]
      ensures chunk == [] <==> old(unread) == []
      ensures taken == old(taken) + |chunk|
    {
      if unread == [] {
        return [];
      }
      var k :| 0 < k <= n && k <= |unread|;
      chunk := unread[..k];
      unread := unread[k..];
      taken := taken + k;
    }
  }

  /** `_read_limited`: however the body is split into pieces, it is returned whole when it fits and
      refused otherwise, after reading at most one byte more than the limit. */
  method ReadLimited(reader: StreamReader, limit: nat, tooLarge: ObservationError)
    returns (r: Result<bytes, ObservationError>)
    modifies reader
    ensures r == if |old(reader.unread)| <= limit then Ok(old(reader.unread)) else Err(tooLarge)
    ensures reader.taken <= old(reader.taken) + limit + 1
  {
    ghost var whole := reader.unread;
    var body: bytes := [];
    var remaining := limit + 1;
    while remaining > 0
      invariant body + reader.unread == whole
      invariant remaining >= 0 && remaining + |body| == limit + 1
      invariant reader.taken == old(reader.taken) + |body|
      decreases remaining
    {
      var chunk := reader.Read(if remaining < READ_SIZE then remaining else READ_SIZE);
      if chunk == [] {
        assert reader.unread == [] && body == whole;
        break;
      }
      body := body + chunk;
      remaining := remaining - |chunk|;
    }
    assert body <= whole && (remaining > 0 ==> body == whole);
    if |body| > limit {
      return Err(tooLarge);
    }
    return Ok(body);
  }

  // ---------------------------------------------------------------- one event

  /** The variables of one `observe_live_session` call. */
  datatype Progress = Progress(cursor: nat, head: string, count: nat, processed: nat,
                               artifactCount: nat, artifactBytes: nat)

  function ArtifactFault(p: Scheme, s: Progress, e: LiveEvent, reply: Option<bytes>): Option<ObservationError> {
    if reply.None? then Some(ArtifactMissing)
    else
      var remaining := MAX_OBSERVATION_ARTIFACT_BYTES - s.artifactBytes;
      if remaining <= 0 then Some(ArtifactBudgetExceeded)
      else if |reply.value| > (if remaining < MAX_ARTIFACT_BYTES then remaining else MAX_ARTIFACT_BYTES) then
        Some(if remaining >= MAX_ARTIFACT_BYTES then ArtifactTooLarge else ArtifactBudgetExceeded)
      else if p.digest(reply.value) != e.artifactHash || reply.value != Utf8.Encode(e.content) then
        Some(ArtifactHashMismatch)
      else None
  }

  /** The checks on one event, in the order they are made. */
  function EventFault(p: Scheme, sessionId: string, s: Progress, e: LiveEvent, reply: Option<bytes>)
    : Option<ObservationError>
  {
    if s.processed + 1 > MAX_OBSERVATION_EVENTS then Some(EventLimitExceeded)
    else if !EventSchema(e) then Some(SchemaRefused)
    else if e.sessionId != sessionId then Some(WrongSession)
    else if e.sequence != s.cursor + 1 then Some(SequenceGap)
    else if Lower(e.previousHash) != Lower(s.head) then Some(HashChainBroken)
    else if !VerifyLiveEvent(p, e) then Some(EventHashMismatch)
    else ArtifactFault(p, s, e, reply)
  }

  function RowOf(s: Progress): CursorRow {
    CursorRow(s.cursor, s.head, s.count)
  }

  /** An event that passes every check moves the cursor and is saved before the next one is looked at. */
  function TakeEvent(p: Scheme, sessionId: string, row: Option<CursorRow>, s: Progress, e: LiveEvent,
                     reply: Option<bytes>): Result<Progress, ObservationError>
  {
    var fault := EventFault(p, sessionId, s, e, reply);
    if fault.Some? then Err(fault.value)
    else
      var next := Progress(e.sequence, e.eventHash, e.sequence, s.processed + 1, s.artifactCount + 1,
                           s.artifactBytes + |reply.value|);
      var saved := SaveRow(row, RowOf(next));
      if saved.Err? then Err(saved.error) else Ok(next)
  }

  /** A whole stream response, against any artifact server. */
  function TakeAll(p: Scheme, sessionId: string, row: Option<CursorRow>, s: Progress, es: seq<LiveEvent>,
                   fetch: LiveEvent -> Option<bytes>): (Option<CursorRow>, Result<Progress, ObservationError>)
  {
    if es == [] then (row, Ok(s))
    else
      var before := TakeAll(p, sessionId, row, s, es[..|es| - 1], fetch);
      if before.1.Err? then before
      else
        var e := es[|es| - 1];
        var r := TakeEvent(p, sessionId, before.0, before.1.value, e, fetch(e));
        if r.Err? then (before.0, r) else (Some(RowOf(r.value)), r)
  }

  lemma {:induction false} TakeStops(p: Scheme, sessionId: string, row: Option<CursorRow>, s: Progress,
                                     es: seq<LiveEvent>, fetch: LiveEvent -> Option<bytes>, n: nat)
    requires n <= |es| && TakeAll(p, sessionId, row, s, es[..n], fetch).1.Err?
    ensures TakeAll(p, sessionId, row, s, es, fetch) == TakeAll(p, sessionId, row, s, es[..n], fetch)
  {
    if n < |es| {
      assert es[..|es| - 1][..n] == es[..n];
      TakeStops(p, sessionId, row, s, es[..|es| - 1], fetch, n);
    } else {
      assert es[..n] == es;
    }
  }

  // ---------------------------------------------------------------- the budgets

  /** How many events of a response are taken, the cursor row saved for each, before the first fault. */
  function Taken(p: Scheme, sessionId: string, row: Option<CursorRow>, s: Progress, es: seq<LiveEvent>,
                 fetch: LiveEvent -> Option<bytes>): (k: nat)
    ensures k <= |es|
  {
    if es == [] then 0
    else
      var front := es[..|es| - 1];
      var before := TakeAll(p, sessionId, row, s, front, fetch);
      if before.1.Err? then Taken(p, sessionId, row, s, front, fetch)
      else if TakeEvent(p, sessionId, before.0, before.1.value, es[|es| - 1], fetch(es[|es| - 1])).Err? then |es| - 1
      else |es|
  }

  function ArtifactSize(e: LiveEvent): nat {
    |Utf8.Encode(e.content)|
  }

  /** The artifacts of these events together; an accepted artifact is the content of its event. */
  function ArtifactBytes(es: seq<LiveEvent>): nat {
    if es == [] then 0 else ArtifactBytes(es[..|es| - 1]) + ArtifactSize(es[|es| - 1])
  }

  /** What processing these events may cost at most, on top of what was processed before. */
  ghost predicate WithinBudget(s: Progress, es: seq<LiveEvent>) {
    && s.processed + |es| <= MAX_OBSERVATION_EVENTS
    && s.artifactBytes + ArtifactBytes(es) <= MAX_OBSERVATION_ARTIFACT_BYTES
    && forall e | e in es :: ArtifactSize(e) <= MAX_ARTIFACT_BYTES
  }

  /** An event that is taken costs one event and its artifact, and stays within the budgets. */
  lemma TakenWithinBudget(p: Scheme, sessionId: string, row: Option<CursorRow>, s: Progress, e: LiveEvent,
                          reply: Option<bytes>)
    requires TakeEvent(p, sessionId, row, s, e, reply).Ok?
    ensures TakeEvent(p, sessionId, row, s, e, reply).value.processed == s.processed + 1 <= MAX_OBSERVATION_EVENTS
    ensures (TakeEvent(p, sessionId, row, s, e, reply).value.artifactBytes
             == s.artifactBytes + ArtifactSize(e) <= MAX_OBSERVATION_ARTIFACT_BYTES)
    ensures ArtifactSize(e) <= MAX_ARTIFACT_BYTES
  {
  }

  lemma BudgetExtends(s: Progress, mid: Progress, es: seq<LiveEvent>, e: LiveEvent)
    requires WithinBudget(s, es) && mid.processed == s.processed + |es|
    requires mid.artifactBytes == s.artifactBytes + ArtifactBytes(es)
    requires mid.processed + 1 <= MAX_OBSERVATION_EVENTS && ArtifactSize(e) <= MAX_ARTIFACT_BYTES
    requires mid.artifactBytes + ArtifactSize(e) <= MAX_OBSERVATION_ARTIFACT_BYTES
    ensures WithinBudget(s, es + [e]) && ArtifactBytes(es + [e]) == ArtifactBytes(es) + ArtifactSize(e)
  {
    assert (es + [e])[..|es|] == es;
  }

  /** The last event of a response: it is taken and paid for, or the response ends before it. */
  lemma TakenLast(p: Scheme, sessionId: string, row: Option<CursorRow>, s: Progress, es: seq<LiveEvent>,
                  fetch: LiveEvent -> Option<bytes>)
    requires es != []
    ensures var n, front := |es| - 1, es[..|es| - 1];
            var before, after := TakeAll(p, sessionId, row, s, front, fetch).1,
              TakeAll(p, sessionId, row, s, es, fetch).1;
            var k := Taken(p, sessionId, row, s, es, fetch);
            if before.Err? then after.Err? && k == Taken(p, sessionId, row, s, front, fetch)
            else if after.Err? then k == n
            else
              && k == |es| && ArtifactSize(es[n]) <= MAX_ARTIFACT_BYTES
              && after.value.processed == before.value.processed + 1 <= MAX_OBSERVATION_EVENTS
              && (after.value.artifactBytes == before.value.artifactBytes + ArtifactSize(es[n])
                  <= MAX_OBSERVATION_ARTIFACT_BYTES)
  {
    var n, before := |es| - 1, TakeAll(p, sessionId, row, s, es[..|es| - 1], fetch);
    if before.1.Ok? && TakeEvent(p, sessionId, before.0, before.1.value, es[n], fetch(es[n])).Ok? {
      TakenWithinBudget(p, sessionId, before.0, before.1.value, es[n], fetch(es[n]));
    }
  }

  /** The same prefix of a longer list. */
  lemma PrefixWithin(s: Progress, es: seq<LiveEvent>, front: seq<LiveEvent>, k: nat)
    requires front <= es && k <= |front| && WithinBudget(s, front[..k])
    ensures WithinBudget(s, es[..k])
  {
    assert es[..k] == front[..k];
  }

  lemma WholeWithin(s: Progress, mid: Progress, es: seq<LiveEvent>)
    requires es != [] && WithinBudget(s, es[..|es| - 1]) && mid.processed == s.processed + |es| - 1
    requires mid.artifactBytes == s.artifactBytes + ArtifactBytes(es[..|es| - 1])
    requires mid.processed + 1 <= MAX_OBSERVATION_EVENTS && ArtifactSize(es[|es| - 1]) <= MAX_ARTIFACT_BYTES
    requires mid.artifactBytes + ArtifactSize(es[|es| - 1]) <= MAX_OBSERVATION_ARTIFACT_BYTES
    ensures WithinBudget(s, es[..|es|])
    ensures ArtifactBytes(es) == ArtifactBytes(es[..|es| - 1]) + ArtifactSize(es[|es| - 1])
  {
    var n := |es| - 1;
    BudgetExtends(s, mid, es[..n], es[n]);
    assert es[..n] + [es[n]] == es && es[..|es|] == es;
  }

  /** However a response ends, the events taken from it are within the budgets: in number, in the size of
      each artifact, and in the size of all of them. */
  lemma {:induction false} TakenFits(p: Scheme, sessionId: string, row: Option<CursorRow>, s: Progress,
                                     es: seq<LiveEvent>, fetch: LiveEvent -> Option<bytes>)
    requires s.processed <= MAX_OBSERVATION_EVENTS && s.artifactBytes <= MAX_OBSERVATION_ARTIFACT_BYTES
    ensures WithinBudget(s, es[..Taken(p, sessionId, row, s, es, fetch)])
    ensures var r := TakeAll(p, sessionId, row, s, es, fetch).1;
            r.Ok? ==> Taken(p, sessionId, row, s, es, fetch) == |es| && r.value.processed == s.processed + |es|
                      && r.value.artifactBytes == s.artifactBytes + ArtifactBytes(es)
  {
    if es != [] {
      var n := |es| - 1;
      var front := es[..n];
      TakenLast(p, sessionId, row, s, es, fetch);
      TakenFits(p, sessionId, row, s, front, fetch);
      var k, k' := Taken(p, sessionId, row, s, front, fetch), Taken(p, sessionId, row, s, es, fetch);
      var before, after := TakeAll(p, sessionId, row, s, front, fetch).1, TakeAll(p, sessionId, row, s, es, fetch).1;
      if after.Err? {
        PrefixWithin(s, es, front, k);
      } else {
        assert front[..k] == front;
        WholeWithin(s, before.value, es);
      }
    }
  }

  // ---------------------------------------------------------------- the event loop

  /** One round of the event loop: the checks, and the cursor saved before the next round. */
  method ReplayOne(p: Scheme, cursors: ObservationCursorStore, key: CursorKey, s: Progress, e: LiveEvent,
                   reply: Option<bytes>)
    returns (r: Result<Progress, ObservationError>)
    modifies cursors
    ensures r == TakeEvent(p, key.1, old(cursors.Get(key)), s, e, reply)
    ensures cursors.Get(key) == if r.Ok? then Some(RowOf(r.value)) else old(cursors.Get(key))
    ensures cursors.rows - {key} == old(cursors.rows) - {key}
  {
    var fault := EventFault(p, key.1, s, e, reply);
    if fault.Some? {
      return Err(fault.value);
    }
    var next := Progress(e.sequence, e.eventHash, e.sequence, s.processed + 1, s.artifactCount + 1,
                         s.artifactBytes + |reply.value|);
    var saved := cursors.Save(key, RowOf(next));
    if saved.Err? {
      return Err(saved.error);
    }
    return Ok(next);
  }

  lemma TakeOneMore(p: Scheme, sessionId: string, row: Option<CursorRow>, s: Progress, es: seq<LiveEvent>,
                    fetch: LiveEvent -> Option<bytes>, i: nat)
    requires i < |es| && TakeAll(p, sessionId, row, s, es[..i], fetch).1.Ok?
    ensures var before := TakeAll(p, sessionId, row, s, es[..i], fetch);
      var r := TakeEvent(p, sessionId, before.0, before.1.value, es[i], fetch(es[i]));
      TakeAll(p, sessionId, row, s, es[..i + 1], fetch) == if r.Err? then (before.0, r) else (Some(RowOf(r.value)), r)
  {
    assert es[..i + 1][..i] == es[..i];
  }

  /** The event loop of `observe_live_session`. In every outcome the events it took, and saved a cursor for,
      are within the budgets, whatever the server sends. */
  method ReplayEvents(p: Scheme, cursors: ObservationCursorStore, key: CursorKey, start: Progress,
                      events: seq<LiveEvent>, fetch: LiveEvent -> Option<bytes>)
    returns (r: Result<Progress, ObservationError>)
    requires start.processed <= MAX_OBSERVATION_EVENTS && start.artifactBytes <= MAX_OBSERVATION_ARTIFACT_BYTES
    modifies cursors
    ensures (cursors.Get(key), r) == TakeAll(p, key.1, old(cursors.Get(key)), start, events, fetch)
    ensures cursors.rows - {key} == old(cursors.rows) - {key}
    ensures WithinBudget(start, events[..Taken(p, key.1, old(cursors.Get(key)), start, events, fetch)])
    ensures r.Ok? ==> WithinBudget(start, events)
    ensures r.Ok? ==> r.value.processed == start.processed + |events|
    ensures r.Ok? ==> r.value.artifactBytes == start.artifactBytes + ArtifactBytes(events)
  {
    ghost var row := cursors.Get(key);
    TakenFits(p, key.1, row, start, events, fetch);
    assert events[..|events|] == events;
    r := Ok(start);
    for i := 0 to |events|
      invariant r.Ok? && (cursors.Get(key), r) == TakeAll(p, key.1, row, start, events[..i], fetch)
      invariant cursors.rows - {key} == old(cursors.rows) - {key}
    {
      TakeOneMore(p, key.1, row, start, events, fetch, i);
      r := ReplayOne(p, cursors, key, r.value, events[i], fetch(events[i]));
      if r.Err? {
        TakeStops(p, key.1, row, start, events, fetch, i + 1);
        return;
      }
    }
  }

  /** What the task payload and the stored row give an observer to start from. */
  function Resume(row: Option<CursorRow>, start: nat, initialHead: string): Result<Progress, ObservationError> {
    if row.Some? && row.value.sequence < start then Err(CursorRollback)
    else if row.Some? then Ok(Progress(row.value.sequence, row.value.head, row.value.count, 0, 0, 0))
    else Ok(Progress(start, Lower(initialHead), start, 0, 0, 0))
  }
}
