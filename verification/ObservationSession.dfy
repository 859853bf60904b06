/** `observe_live_session` from start to end against any server: what it reports, what it leaves in the cursor
    store whenever it stops, and how much it can be made to process. */
module ObservationSession {
  import opened Wrappers
  import opened Text
  import opened LiveProtocol
  import opened LiveEvidence
  import opened Observation
  import opened ObservationHistory

  datatype Status = Status(closed: bool, nextSequence: int, head: string)

  datatype Evidence = NotReady | Served(bundle: Bundle) | Refused(error: ObservationError)

  /** What a server answers in one round, artifact requests included; an error is whatever the request or its
      parsing raised. */
  datatype Exchange = Exchange(stream: Result<seq<LiveEvent>, ObservationError>, artifact: LiveEvent -> Option<bytes>,
                               status: Result<Status, ObservationError>, evidence: Evidence)

  datatype Report = Report(observedFrom: nat, lastSequence: nat, eventCount: nat, head: string, bundleHash: string,
                           artifactCount: nat, recovered: bool)

  /** The stored row stands for these checked events, from cursor 0; without a row there are none. */
  ghost predicate RowStandsFor(p: Scheme, sessionId: string, row: Option<CursorRow>, es: seq<LiveEvent>) {
    if row.Some? then History(p, sessionId, Progress(row.value.sequence, row.value.head, row.value.count, 0, 0, 0), es)
    else es == []
  }

  /** Where the loop stands: `s` and the stored row agree on the events checked so far. */
  ghost predicate OnTrack(p: Scheme, sessionId: string, row: Option<CursorRow>, s: Progress, es: seq<LiveEvent>) {
    History(p, sessionId, s, es) && RowStandsFor(p, sessionId, row, es)
  }

  lemma EventOnTrack(p: Scheme, sessionId: string, row: Option<CursorRow>, s: Progress, es: seq<LiveEvent>,
                     e: LiveEvent, reply: Option<bytes>)
    requires History(p, sessionId, s, es) && TakeEvent(p, sessionId, row, s, e, reply).Ok?
    ensures var next := TakeEvent(p, sessionId, row, s, e, reply).value;
      OnTrack(p, sessionId, Some(RowOf(next)), next, es + [e])
  {
    HistoryExtends(p, sessionId, row, s, es, e, reply);
    RowOfHistory(p, sessionId, TakeEvent(p, sessionId, row, s, e, reply).value, es + [e]);
  }

  /** What is true after a response: the row left behind stands for the events taken, all of them on success. */
  ghost predicate Tracked(p: Scheme, sessionId: string, r: (Option<CursorRow>, Result<Progress, ObservationError>),
                          es: seq<LiveEvent>, batch: seq<LiveEvent>, k: nat)
  {
    && k <= |batch| && RowStandsFor(p, sessionId, r.0, es + batch[..k])
    && (r.1.Ok? ==> k == |batch| && OnTrack(p, sessionId, r.0, r.1.value, es + batch))
  }

  /** The last event of a response is taken, or it leaves what the events before it left. */
  lemma LastEvent(p: Scheme, sessionId: string, row: Option<CursorRow>, s: Progress, es: seq<LiveEvent>,
                  batch: seq<LiveEvent>, fetch: LiveEvent -> Option<bytes>) returns (isTaken: bool)
    requires batch != []
    requires var front := batch[..|batch| - 1];
      Tracked(p, sessionId, TakeAll(p, sessionId, row, s, front, fetch), es, front,
              Taken(p, sessionId, row, s, front, fetch))
    ensures var r, k := TakeAll(p, sessionId, row, s, batch, fetch), Taken(p, sessionId, row, s, batch, fetch);
      var front := batch[..|batch| - 1];
      if isTaken then
        k == |batch| && r.1.Ok? && OnTrack(p, sessionId, r.0, r.1.value, es + front + [batch[|batch| - 1]])
      else
        r.1.Err? && r.0 == TakeAll(p, sessionId, row, s, front, fetch).0
          && k == Taken(p, sessionId, row, s, front, fetch)
  {
    var n := |batch| - 1;
    var front, e := batch[..n], batch[n];
    var before := TakeAll(p, sessionId, row, s, front, fetch);
    isTaken := before.1.Ok? && TakeEvent(p, sessionId, before.0, before.1.value, e, fetch(e)).Ok?;
    if isTaken {
      EventOnTrack(p, sessionId, before.0, before.1.value, es + front, e, fetch(e));
    }
  }

  lemma WholeBatch(es: seq<LiveEvent>, batch: seq<LiveEvent>)
    requires batch != []
    ensures es + batch[..|batch| - 1] + [batch[|batch| - 1]] == es + batch && batch[..|batch|] == batch
    ensures forall k | 0 <= k < |batch| :: batch[..|batch| - 1][..k] == batch[..k]
  {
  }

  /** However far into a response the checks get, the row left behind stands for the events taken. */
  lemma {:induction false} ResponseOnTrack(p: Scheme, sessionId: string, row: Option<CursorRow>, s: Progress,
                                           es: seq<LiveEvent>, batch: seq<LiveEvent>, fetch: LiveEvent -> Option<bytes>)
    requires OnTrack(p, sessionId, row, s, es)
    ensures Tracked(p, sessionId, TakeAll(p, sessionId, row, s, batch, fetch), es, batch,
                    Taken(p, sessionId, row, s, batch, fetch))
  {
    if batch == [] {
      assert es + batch == es && es + batch[..0] == es;
    } else {
      ResponseOnTrack(p, sessionId, row, s, es, batch[..|batch| - 1], fetch);
      var isTaken := LastEvent(p, sessionId, row, s, es, batch, fetch);
      WholeBatch(es, batch);
    }
  }

  lemma RowOfHistory(p: Scheme, sessionId: string, s: Progress, es: seq<LiveEvent>)
    requires History(p, sessionId, s, es)
    ensures RowStandsFor(p, sessionId, Some(RowOf(s)), es)
  {
  }

  lemma ResumesOnTrack(p: Scheme, sessionId: string, row: Option<CursorRow>, past: seq<LiveEvent>)
    requires RowStandsFor(p, sessionId, row, past)
    ensures var r := Resume(row, 0, ZERO_HASH);
      r.Ok? && OnTrack(p, sessionId, row, r.value, past) && r.value.processed == 0 && r.value.artifactBytes == 0
  {
    HistoryStarts(p, sessionId);
  }

  /** What a successful observation is worth: the head commits checked events, and the bundle fits them. */
  ghost predicate Vouches(p: Scheme, sessionId: string, r: Report, s: Progress, es: seq<LiveEvent>) {
    && History(p, sessionId, s, es) && r.lastSequence == r.eventCount == |es| && r.head == HeadOf(es)
    && exists b: Bundle :: BundleHash(p, b) == r.bundleHash == b.bundleHash && b.eventCount == |es|
                           && Lower(b.head) == Lower(r.head)
  }

  /** One round's verdict on the session and its evidence (lines 293-347): the bundle, if the round ends it. */
  method Conclude(p: Scheme, s: Progress, x: Exchange) returns (r: Result<Option<Bundle>, ObservationError>)
    requires x.status.Ok?
    ensures (r.Ok? && r.value.Some? ==>
             x.status.value.closed && s.cursor == x.status.value.nextSequence - 1
             && r.value.value.bundleHash == BundleHash(p, r.value.value) && r.value.value.eventCount == s.count
             && Lower(r.value.value.head) == Lower(s.head))
    ensures !x.status.value.closed ==> r == Ok(None)
    ensures x.status.value.closed && s.cursor < x.status.value.nextSequence - 1 ==> r == Ok(None)
    ensures x.status.value.closed && s.cursor > x.status.value.nextSequence - 1 ==> r == Err(SequenceGap)
  {
    var state := x.status.value;
    if !state.closed {
      return Ok(None);
    }
    var terminal := state.nextSequence - 1;
    if s.cursor < terminal {
      return Ok(None);
    }
    if s.cursor != terminal {
      return Err(SequenceGap);
    }
    if Lower(state.head) != Lower(s.head) {
      return Err(HashChainBroken);
    }
    match x.evidence {
      case NotReady => return Ok(None);
      case Refused(e) => return Err(e);
      case Served(bundle) =>
        if bundle.bundleHash != BundleHash(p, bundle) {
          return Err(BundleHashMismatch);
        }
        if Lower(bundle.head) != Lower(s.head) || bundle.eventCount != s.count {
          return Err(ObservationBundleMismatch);
        }
        return Ok(Some(bundle));
    }
  }

  function Untouched(): Progress {
    Progress(0, "", 0, 0, 0, 0)
  }

  /** What a call has processed so far, and that it is within the budgets. */
  ghost predicate Accounted(s: Progress, seen: seq<LiveEvent>) {
    WithinBudget(Untouched(), seen) && s.processed == |seen| && s.artifactBytes == ArtifactBytes(seen)
  }

  lemma {:induction false} BytesOfBoth(a: seq<LiveEvent>, b: seq<LiveEvent>)
    ensures ArtifactBytes(a + b) == ArtifactBytes(a) + ArtifactBytes(b)
  {
    if b == [] {
      assert a + b == a;
    } else {
      BytesOfBoth(a, b[..|b| - 1]);
      assert (a + b)[..|a + b| - 1] == a + b[..|b| - 1];
    }
  }

  lemma MoreAccounted(s: Progress, seen: seq<LiveEvent>, more: seq<LiveEvent>)
    requires Accounted(s, seen) && WithinBudget(s, more)
    ensures WithinBudget(Untouched(), seen + more)
    ensures ArtifactBytes(seen + more) == s.artifactBytes + ArtifactBytes(more)
  {
    BytesOfBoth(seen, more);
  }

  /** One round: the response is replayed, then the session and its evidence are judged. */
  method OneRound(p: Scheme, cursors: ObservationCursorStore, key: CursorKey, s: Progress, x: Exchange,
                  ghost es: seq<LiveEvent>, ghost seen: seq<LiveEvent>)
    returns (r: Result<Option<Bundle>, ObservationError>, next: Progress, ghost some: seq<LiveEvent>)
    requires OnTrack(p, key.1, cursors.Get(key), s, es) && Accounted(s, seen)
    modifies cursors
    ensures RowStandsFor(p, key.1, cursors.Get(key), es + some) && WithinBudget(Untouched(), seen + some)
    ensures r.Ok? ==> OnTrack(p, key.1, cursors.Get(key), next, es + some) && Accounted(next, seen + some)
    ensures (r.Ok? && r.value.Some? ==>
             r.value.value.bundleHash == BundleHash(p, r.value.value) && r.value.value.eventCount == next.count
             && Lower(r.value.value.head) == Lower(next.head))
    ensures cursors.rows - {key} == old(cursors.rows) - {key}
  {
    next, some := s, [];
    assert es + some == es && seen + some == seen;
    if x.stream.Err? {
      return Err(x.stream.error), next, some;
    }
    var batch := x.stream.value;
    ghost var row := cursors.Get(key);
    some := batch[..Taken(p, key.1, row, s, batch, x.artifact)];
    ResponseOnTrack(p, key.1, row, s, es, batch, x.artifact);
    var replayed := ReplayEvents(p, cursors, key, s, batch, x.artifact);
    MoreAccounted(s, seen, some);
    if replayed.Err? {
      return Err(replayed.error), next, some;
    }
    assert some == batch;
    next := replayed.value;
    if x.status.Err? {
      return Err(x.status.error), next, some;
    }
    r := Conclude(p, next, x);
  }

  /** Rounds until one of them ends the observation, or the deadline does. */
  method RunRounds(p: Scheme, cursors: ObservationCursorStore, key: CursorKey, start: Progress, rounds: seq<Exchange>,
                   ghost past: seq<LiveEvent>)
    returns (r: Result<Bundle, ObservationError>, last: Progress, ghost seen: seq<LiveEvent>)
    requires OnTrack(p, key.1, cursors.Get(key), start, past) && Accounted(start, [])
    modifies cursors
    ensures RowStandsFor(p, key.1, cursors.Get(key), past + seen) && WithinBudget(Untouched(), seen)
    ensures r.Ok? ==> OnTrack(p, key.1, cursors.Get(key), last, past + seen)
    ensures (r.Ok? ==> r.value.bundleHash == BundleHash(p, r.value) && r.value.eventCount == last.count
                       && Lower(r.value.head) == Lower(last.head))
    ensures cursors.rows - {key} == old(cursors.rows) - {key}
  {
    seen, last := [], start;
    assert past + [] == past;
    for i := 0 to |rounds|
      invariant OnTrack(p, key.1, cursors.Get(key), last, past + seen) && Accounted(last, seen)
      invariant cursors.rows - {key} == old(cursors.rows) - {key}
    {
      var verdict, next;
      ghost var some;
      verdict, next, some := OneRound(p, cursors, key, last, rounds[i], past + seen, seen);
      assert past + seen + some == past + (seen + some);
      seen, last := seen + some, next;
      if verdict.Err? {
        return Err(verdict.error), last, seen;
      }
      if verdict.value.Some? {
        return Ok(verdict.value.value), last, seen;
      }
    }
    return Err(ObservationTimeout), last, seen;
  }

  /** The whole observation from cursor 0 and the zero hash, the rounds being those before the deadline.
      `past` are the events checked by the calls before it, `seen` those checked in this one, for which it
      saved a cursor; `last` is where it stood when it stopped. In every outcome `seen` is within the budgets. */
  method ObserveLiveSession(p: Scheme, cursors: ObservationCursorStore, key: CursorKey, rounds: seq<Exchange>,
                            ghost past: seq<LiveEvent>)
    returns (r: Result<Report, ObservationError>, ghost seen: seq<LiveEvent>, ghost last: Progress)
    requires RowStandsFor(p, key.1, cursors.Get(key), past)
    modifies cursors
    ensures RowStandsFor(p, key.1, cursors.Get(key), past + seen)
    ensures r.Ok? ==> Vouches(p, key.1, r.value, last, past + seen)
    ensures r.Ok? ==> r.value.observedFrom == |past| && r.value.recovered == old(cursors.Get(key)).Some?
    ensures |seen| <= MAX_OBSERVATION_EVENTS && ArtifactBytes(seen) <= MAX_OBSERVATION_ARTIFACT_BYTES
    ensures forall e | e in seen :: ArtifactSize(e) <= MAX_ARTIFACT_BYTES
    ensures cursors.rows - {key} == old(cursors.rows) - {key}
  {
    var stored := cursors.Get(key);
    ResumesOnTrack(p, key.1, stored, past);
    var start := Resume(stored, 0, ZERO_HASH).value;
    var bundle, end;
    bundle, end, seen := RunRounds(p, cursors, key, start, rounds, past);
    last := end;
    if bundle.Err? {
      return Err(bundle.error), seen, last;
    }
    var report := ReportOf(start.cursor, end, bundle.value.bundleHash, stored.Some?);
    VouchedBy(p, key.1, report, end, past + seen, bundle.value);
    return Ok(report), seen, last;
  }

  function ReportOf(from: nat, s: Progress, bundleHash: string, recovered: bool): Report {
    Report(from, s.cursor, s.count, s.head, bundleHash,
           if recovered && s.artifactCount == 0 then s.count else s.artifactCount,
           recovered)
  }

  lemma VouchedBy(p: Scheme, sessionId: string, r: Report, s: Progress, es: seq<LiveEvent>, b: Bundle)
    requires History(p, sessionId, s, es) && r.lastSequence == s.cursor && r.eventCount == s.count && r.head == s.head
    requires b.bundleHash == BundleHash(p, b) == r.bundleHash && b.eventCount == s.count
             && Lower(b.head) == Lower(s.head)
    ensures Vouches(p, sessionId, r, s, es)
  {
  }

  /** Any number of observations, one after the other on the same cursor store, each against its own server
      and each stopped wherever it stops: the row they leave still stands for one checked history. */
  method ObserveAgain(p: Scheme, cursors: ObservationCursorStore, key: CursorKey, runs: seq<seq<Exchange>>)
    returns (r: Result<Report, ObservationError>, ghost es: seq<LiveEvent>, ghost last: Progress)
    requires cursors.Get(key) == None
    modifies cursors
    ensures RowStandsFor(p, key.1, cursors.Get(key), es)
    ensures r.Ok? ==> Vouches(p, key.1, r.value, last, es)
  {
    r, es, last := Err(ObservationTimeout), [], Untouched();
    for i := 0 to |runs|
      invariant RowStandsFor(p, key.1, cursors.Get(key), es)
      invariant r.Ok? ==> Vouches(p, key.1, r.value, last, es)
    {
      ghost var seen;
      r, seen, last := ObserveLiveSession(p, cursors, key, runs[i], es);
      es := es + seen;
    }
  }
}
