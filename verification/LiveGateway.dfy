/** The ingest gateway: batches of raw events, closing, finalizing, and every run of those. */
module LiveGateway {
  import opened Wrappers
  import Json
  import opened LiveProtocol
  import opened LiveStore
  import opened LiveEvidence
  import Utf8

  /** A JSON scalar a client may send where the protocol wants text. */
  datatype RawScalar = Text(s: string) | Number(n: int) {
    /** Python's `str`. */
    function Str(): string {
      match this
      case Text(s) => s
      case Number(n) => Json.PrintInt(n)
    }
  }

  /** One posted event. Absent fields are `None`; so is a category outside the three allowed. */
  datatype RawEvent = RawEvent(eventId: string, occurredAt: RawScalar, category: Option<Category>,
                               sourceType: Option<string>, content: string, sequence: Option<nat>,
                               previousHash: Option<string>, artifactHash: Option<string>,
                               sourceUri: Option<string>, mediaUrl: Option<string>, mediaHash: Option<string>)

  datatype Report = Report(accepted: nat, duplicates: nat, events: seq<LiveEvent>) {
    function Add(a: Appended): Report {
      Report(accepted + (if a.duplicate then 0 else 1), duplicates + (if a.duplicate then 1 else 0), events + [a.event])
    }
  }

  /** The comparison of raw fields that lets a resent event through without an append. */
  predicate SameRawFields(e: LiveEvent, raw: RawEvent) {
    && e.eventId == raw.eventId && Text(e.occurredAt) == raw.occurredAt && Some(e.category) == raw.category
    && Some(e.sourceType) == raw.sourceType && e.content == raw.content
  }

  /** The event a raw one becomes at the current end of a session. */
  function Built(p: Scheme, session: Session, sessionId: string, raw: RawEvent): (e: LiveEvent)
    requires raw.category.Some?
  {
    BuildLiveEvent(p, raw.eventId, sessionId,
                   if raw.sequence.Some? then raw.sequence.value else session.nextSequence,
                   raw.occurredAt.Str(), raw.category.value,
                   if raw.sourceType.Some? then raw.sourceType.value else session.sourceType,
                   raw.content, ContentHash(p, raw.content),
                   if raw.previousHash.Some? then raw.previousHash.value else session.head,
                   raw.sourceUri, raw.mediaUrl, raw.mediaHash)
  }

  /** What happens once the artifact is stored. */
  function Record(p: Scheme, db: Db, sessionId: string, raw: RawEvent): (Db, Result<Appended, LiveError>) {
    var existing := FindEvent(db.events, raw.eventId);
    if existing.Some? && SameRawFields(existing.value, raw) then (db, Ok(Appended(true, existing.value)))
    else
      var session := GetSession(db, sessionId);
      if session.Err? then (db, Err(session.error))
      else if raw.category.None? then (db, Err(InvalidInput))
      else AppendEvent(p, db, Built(p, session.value, sessionId, raw))
  }

  /** One iteration of the batch loop. */
  function IngestOne(p: Scheme, w: World, sessionId: string, raw: RawEvent): (World, Result<Appended, LiveError>) {
    if raw.artifactHash.Some? && raw.artifactHash.value != ContentHash(p, raw.content) then
      (w, Err(ArtifactHashMismatch))
    else
      var (files, put) := PutArtifact(p, w.artifacts, Utf8.Encode(raw.content));
      if put.Err? then (w.(artifacts := files), Err(put.error))
      else
        var (db, r) := Record(p, w.db, sessionId, raw);
        (World(db, files), r)
  }

  /** The batch loop: items in order, stopping at the first error with everything before it kept. */
  function IngestAll(p: Scheme, w: World, sessionId: string, raws: seq<RawEvent>): (World, Result<Report, LiveError>) {
    if raws == [] then (w, Ok(Report(0, 0, [])))
    else
      var (w1, r1) := IngestAll(p, w, sessionId, raws[..|raws| - 1]);
      if r1.Err? then (w1, r1)
      else
        var (w2, r2) := IngestOne(p, w1, sessionId, raws[|raws| - 1]);
        (w2, if r2.Err? then Err(r2.error) else Ok(r1.value.Add(r2.value)))
  }

  method AppendOne(metadata: LiveMetadataStore, artifacts: LocalArtifactStore, sessionId: string, raw: RawEvent)
    returns (r: Result<Appended, LiveError>)
    requires metadata.p == artifacts.p
    modifies metadata, artifacts
    ensures (World(metadata.View(), artifacts.files), r)
         == IngestOne(metadata.p, World(old(metadata.View()), old(artifacts.files)), sessionId, raw)
  {
    var digest := ContentHash(metadata.p, raw.content);
    if raw.artifactHash.Some? && raw.artifactHash.value != digest {
      return Err(ArtifactHashMismatch);
    }
    var put := artifacts.Put(Utf8.Encode(raw.content));
    if put.Err? {
      return Err(put.error);
    }
    var existing := FindEvent(metadata.events, raw.eventId);
    if existing.Some? && SameRawFields(existing.value, raw) {
      return Ok(Appended(true, existing.value));
    }
    if sessionId !in metadata.sessions {
      return Err(SessionNotFound);
    }
    if raw.category.None? {
      return Err(InvalidInput);
    }
    r := metadata.Append(Built(metadata.p, metadata.sessions[sessionId], sessionId, raw));
  }

  /** `append_events`. */
  method AppendEvents(metadata: LiveMetadataStore, artifacts: LocalArtifactStore, sessionId: string,
                      raws: seq<RawEvent>)
    returns (r: Result<Report, LiveError>)
    requires metadata.p == artifacts.p
    modifies metadata, artifacts
    ensures (World(metadata.View(), artifacts.files), r)
         == IngestAll(metadata.p, World(old(metadata.View()), old(artifacts.files)), sessionId, raws)
  {
    ghost var w0 := World(metadata.View(), artifacts.files);
    var report := Report(0, 0, []);
    var i := 0;
    while i < |raws|
      invariant 0 <= i <= |raws|
      invariant (World(metadata.View(), artifacts.files), Result<Report, LiveError>.Ok(report))
             == IngestAll(metadata.p, w0, sessionId, raws[..i])
    {
      assert raws[..i + 1][..i] == raws[..i];
      var one := AppendOne(metadata, artifacts, sessionId, raws[i]);
      if one.Err? {
        IngestStops(metadata.p, w0, sessionId, raws, i + 1);
        return Err(one.error);
      }
      report := report.Add(one.value);
      i := i + 1;
    }
    assert raws[..i] == raws;
    return Ok(report);
  }

  /** Nothing happens after the first error. */
  lemma {:induction false} IngestStops(p: Scheme, w: World, sessionId: string, raws: seq<RawEvent>, n: nat)
    requires n <= |raws| && IngestAll(p, w, sessionId, raws[..n]).1.Err?
    ensures IngestAll(p, w, sessionId, raws) == IngestAll(p, w, sessionId, raws[..n])
  {
    if n < |raws| {
      var shorter := raws[..|raws| - 1];
      assert shorter[..n] == raws[..n];
      IngestStops(p, w, sessionId, shorter, n);
    } else {
      assert raws[..n] == raws;
    }
  }

  // ---------------------------------------------------------------- every run of the gateway

  datatype GatewayStep =
    | CreateStep(sessionId: string, sourceType: string, createdAt: string)
    | IngestStep(sessionId: string, raws: seq<RawEvent>)
    | CloseStep(sessionId: string, closedAt: string)
    | FinalizeStep(sessionId: string, revision: nat, finalizedAt: string)

  function Apply(p: Scheme, w: World, step: GatewayStep): World {
    match step
    case CreateStep(s, t, c) => w.(db := CreateSession(w.db, BuildLiveSession(s, t, c)).0)
    case IngestStep(s, raws) => IngestAll(p, w, s, raws).0
    case CloseStep(s, c) => w.(db := CloseSession(w.db, s, c).0)
    case FinalizeStep(s, r, f) => Finalize(p, w, s, r, f).0
  }

  const EMPTY_WORLD: World := World(Db(map[], [], map[]), map[])

  function RunGateway(p: Scheme, steps: seq<GatewayStep>): World {
    if steps == [] then EMPTY_WORLD
    else Apply(p, RunGateway(p, steps[..|steps| - 1]), steps[|steps| - 1])
  }

  lemma BuiltIsStored(p: Scheme, files: Artifacts, session: Session, sessionId: string, raw: RawEvent)
    requires raw.category.Some?
    requires PutArtifact(p, files, Utf8.Encode(raw.content)).1.Ok?
    ensures var e := Built(p, session, sessionId, raw);
            Stored(p, PutArtifact(p, files, Utf8.Encode(raw.content)).0, e.artifactHash, e.content)
  {
  }

  lemma IngestOneKeepsInv(p: Scheme, w: World, sessionId: string, raw: RawEvent)
    requires Inv(p, w)
    ensures Inv(p, IngestOne(p, w, sessionId, raw).0)
  {
    var (files, put) := PutArtifact(p, w.artifacts, Utf8.Encode(raw.content));
    PutKeepsInv(p, w, Utf8.Encode(raw.content));
    if put.Ok? && raw.category.Some? && sessionId in w.db.sessions {
      BuiltIsStored(p, w.artifacts, w.db.sessions[sessionId], sessionId, raw);
      AppendKeepsInv(p, w.(artifacts := files), Built(p, w.db.sessions[sessionId], sessionId, raw));
    }
  }

  lemma {:induction false} IngestAllKeepsInv(p: Scheme, w: World, sessionId: string, raws: seq<RawEvent>)
    requires Inv(p, w)
    ensures Inv(p, IngestAll(p, w, sessionId, raws).0)
  {
    if raws != [] {
      IngestAllKeepsInv(p, w, sessionId, raws[..|raws| - 1]);
      IngestOneKeepsInv(p, IngestAll(p, w, sessionId, raws[..|raws| - 1]).0, sessionId, raws[|raws| - 1]);
    }
  }

  lemma StepKeepsInv(p: Scheme, w: World, step: GatewayStep)
    requires Inv(p, w)
    ensures Inv(p, Apply(p, w, step))
  {
    match step {
      case CreateStep(s, t, c) => CreateKeepsInv(p, w, s, t, c);
      case IngestStep(s, raws) => IngestAllKeepsInv(p, w, s, raws);
      case CloseStep(s, c) => CloseKeepsInv(p, w, s, c);
      case FinalizeStep(s, r, f) => FinalizeKeepsInv(p, w, s, r, f);
    }
  }

  /** Whatever clients post, in whatever order, failing batches included: every reachable store has
      chained, verified, content-addressed events and bundles that match them. */
  lemma {:induction false} GatewayRunsKeepInv(p: Scheme, steps: seq<GatewayStep>)
    ensures Inv(p, RunGateway(p, steps))
  {
    if steps != [] {
      GatewayRunsKeepInv(p, steps[..|steps| - 1]);
      StepKeepsInv(p, RunGateway(p, steps[..|steps| - 1]), steps[|steps| - 1]);
    }
  }

  /** So finalizing a closed session can only fail on a revision that already says something else. */
  lemma FinalizeFailsOnlyOnConflict(p: Scheme, steps: seq<GatewayStep>, sessionId: string, revision: nat,
                                    finalizedAt: string)
    ensures var w := RunGateway(p, steps);
            var r := Finalize(p, w, sessionId, revision, finalizedAt).1;
            sessionId in w.db.sessions && w.db.sessions[sessionId].closed && r.Err? ==>
                r.error == BundleRevisionConflict
  {
    var w := RunGateway(p, steps);
    GatewayRunsKeepInv(p, steps);
    if sessionId in w.db.sessions && w.db.sessions[sessionId].closed {
      ClosedSessionFinalizes(p, w, sessionId, revision, finalizedAt);
    }
  }

  // ---------------------------------------------------------------- growth, and the freeze after close

  /** What a session was created with. */
  predicate SameOrigin(s: Session, t: Session) {
    s.sessionId == t.sessionId && s.sourceType == t.sourceType && s.createdAt == t.createdAt
  }

  /** What later states keep: rows and artifacts are never lost, and a closed session never changes. */
  ghost predicate Grows(w: World, w': World) {
    && w.db.events <= w'.db.events
    && (forall d | d in w.artifacts :: d in w'.artifacts && w'.artifacts[d] == w.artifacts[d])
    && (forall s | s in w.db.sessions :: s in w'.db.sessions && SameOrigin(w.db.sessions[s], w'.db.sessions[s]))
    && (forall s | s in w.db.sessions && w.db.sessions[s].closed :: w'.db.sessions[s] == w.db.sessions[s])
    && (forall k | k in w.db.bundles :: k in w'.db.bundles && w'.db.bundles[k] == w.db.bundles[k])
  }

  lemma GrowsTransitive(a: World, b: World, c: World)
    requires Grows(a, b) && Grows(b, c)
    ensures Grows(a, c)
  {
  }

  lemma RecordGrows(p: Scheme, db: Db, files: Artifacts, sessionId: string, raw: RawEvent)
    ensures Grows(World(db, files), World(Record(p, db, sessionId, raw).0, files))
  {
  }

  lemma IngestOneGrows(p: Scheme, w: World, sessionId: string, raw: RawEvent)
    ensures Grows(w, IngestOne(p, w, sessionId, raw).0)
  {
    var files := PutArtifact(p, w.artifacts, Utf8.Encode(raw.content)).0;
    assert Grows(w, w.(artifacts := files));
    RecordGrows(p, w.db, files, sessionId, raw);
    GrowsTransitive(w, w.(artifacts := files), World(Record(p, w.db, sessionId, raw).0, files));
  }

  lemma {:induction false} IngestAllGrows(p: Scheme, w: World, sessionId: string, raws: seq<RawEvent>)
    ensures Grows(w, IngestAll(p, w, sessionId, raws).0)
  {
    if raws != [] {
      var w1 := IngestAll(p, w, sessionId, raws[..|raws| - 1]).0;
      IngestAllGrows(p, w, sessionId, raws[..|raws| - 1]);
      IngestOneGrows(p, w1, sessionId, raws[|raws| - 1]);
      GrowsTransitive(w, w1, IngestOne(p, w1, sessionId, raws[|raws| - 1]).0);
    }
  }

  lemma FinalizeGrows(p: Scheme, w: World, sessionId: string, revision: nat, finalizedAt: string)
    ensures Grows(w, Finalize(p, w, sessionId, revision, finalizedAt).0)
  {
    var es := Checked(p, w.db, w.artifacts, sessionId);
    if es.Ok? {
      var b := BundleFor(p, sessionId, revision, finalizedAt, es.value);
      assert Grows(w, Saved(w, b).0);
    }
  }

  lemma StepGrows(p: Scheme, w: World, step: GatewayStep)
    ensures Grows(w, Apply(p, w, step))
  {
    match step {
      case CreateStep(_, _, _) =>
      case IngestStep(s, raws) => IngestAllGrows(p, w, s, raws);
      case CloseStep(_, _) =>
      case FinalizeStep(s, r, f) => FinalizeGrows(p, w, s, r, f);
    }
  }

  /** Closing freezes a session: no later step adds, drops or changes one of its events. */
  lemma ClosedEventsFrozen(p: Scheme, w: World, step: GatewayStep, sessionId: string)
    requires Inv(p, w) && sessionId in w.db.sessions && w.db.sessions[sessionId].closed
    ensures EventsOf(Apply(p, w, step).db.events, sessionId) == EventsOf(w.db.events, sessionId)
    ensures sessionId in Apply(p, w, step).db.sessions
    ensures Apply(p, w, step).db.sessions[sessionId] == w.db.sessions[sessionId]
  {
    StepGrows(p, w, step);
    StepKeepsInv(p, w, step);
    var w' := Apply(p, w, step);
    EventsOfPrefix(w.db.events, w'.db.events, sessionId);
    assert SessionOk(p, w.db, sessionId) && SessionOk(p, w'.db, sessionId);
  }

  lemma {:induction false} EventsOfPrefix(a: seq<LiveEvent>, b: seq<LiveEvent>, sessionId: string)
    requires a <= b
    ensures EventsOf(a, sessionId) <= EventsOf(b, sessionId)
  {
    if |b| > |a| {
      EventsOfPrefix(a, b[..|b| - 1], sessionId);
    } else {
      assert a == b;
    }
  }
}
