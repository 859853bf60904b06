/** Content-addressed artifacts and the metadata tables: what each store call does to them. */
module LiveStore {
  import opened Wrappers
  import opened Text
  import opened Canonical
  import opened LiveProtocol

  datatype LiveError =
    | SessionConflict | SessionNotFound | SessionAlreadyClosed | SessionNotClosed
    | EventConflict | EventHashMismatch | SequenceGap | HashChainBroken | IntegrityError
    | InvalidArtifactHash | ArtifactConflict | ArtifactMissing | ArtifactHashMismatch | ArtifactContentMismatch
    | BundleRevisionConflict | BundleNotFound | InvalidInput

  /** The tables, rows in insertion order. */
  datatype Db = Db(sessions: map<string, Session>, events: seq<LiveEvent>, bundles: map<(string, nat), Bundle>)

  datatype Appended = Appended(duplicate: bool, event: LiveEvent)

  // ---------------------------------------------------------------- queries

  function FindEvent(events: seq<LiveEvent>, eventId: string): (r: Option<LiveEvent>)
    ensures r.Some? ==> r.value in events && r.value.eventId == eventId
    ensures r.None? ==> forall e | e in events :: e.eventId != eventId
  {
    if events == [] then None
    else if events[0].eventId == eventId then Some(events[0])
    else
      assert events == [events[0]] + events[1..];
      FindEvent(events[1..], eventId)
  }

  predicate PositionTaken(events: seq<LiveEvent>, sessionId: string, sequence: nat) {
    exists i | 0 <= i < |events| :: events[i].sessionId == sessionId && events[i].sequence == sequence
  }

  /** Rows of one session, in the order they were inserted. */
  function EventsOf(events: seq<LiveEvent>, sessionId: string): seq<LiveEvent> {
    if events == [] then []
    else
      var earlier, last := EventsOf(events[..|events| - 1], sessionId), events[|events| - 1];
      if last.sessionId == sessionId then earlier + [last] else earlier
  }

  function After(events: seq<LiveEvent>, sequence: int): seq<LiveEvent> {
    if events == [] then []
    else (if events[0].sequence > sequence then [events[0]] else []) + After(events[1..], sequence)
  }

  function InsertBySequence(e: LiveEvent, es: seq<LiveEvent>): seq<LiveEvent> {
    if es == [] || e.sequence <= es[0].sequence then [e] + es
    else [es[0]] + InsertBySequence(e, es[1..])
  }

  /** `ORDER BY sequence`. */
  function SortBySequence(es: seq<LiveEvent>): seq<LiveEvent> {
    if es == [] then [] else InsertBySequence(es[0], SortBySequence(es[1..]))
  }

  function ListEvents(db: Db, sessionId: string, afterSequence: int): seq<LiveEvent> {
    SortBySequence(After(EventsOf(db.events, sessionId), afterSequence))
  }

  function GetSession(db: Db, sessionId: string): Result<Session, LiveError> {
    if sessionId in db.sessions then Ok(db.sessions[sessionId]) else Err(SessionNotFound)
  }

  /** `ORDER BY revision DESC LIMIT 1`: the revision whose bundle readers are served. */
  ghost function LatestRevision(db: Db, sessionId: string): (r: Option<nat>)
    ensures r.Some? ==> (sessionId, r.value) in db.bundles
    ensures r.Some? ==> forall n: nat :: (sessionId, n) in db.bundles ==> n <= r.value
    ensures r.None? ==> forall n: nat :: (sessionId, n) !in db.bundles
  {
    var revisions := set k | k in db.bundles && k.0 == sessionId :: k.1;
    assert forall n: nat :: (sessionId, n) in db.bundles ==> n in revisions;
    if revisions == {} then None else Some(Max(revisions))
  }

  ghost function Max(s: set<nat>): (m: nat)
    requires s != {}
    ensures m in s && forall n | n in s :: n <= m
  {
    var x :| x in s;
    if s == {x} then
      assert forall n | n in s :: n == x;
      x
    else
      var m := Max(s - {x});
      assert forall n | n in s :: n == x || n in s - {x};
      if m < x then x else m
  }

  ghost function GetBundle(db: Db, sessionId: string): (r: Result<Bundle, LiveError>)
  {
    var n := LatestRevision(db, sessionId);
    if n.Some? then Ok(db.bundles[(sessionId, n.value)]) else Err(BundleNotFound)
  }

  // ---------------------------------------------------------------- updates

  function CreateSession(db: Db, s: Session): (Db, Result<Session, LiveError>) {
    if s.sessionId in db.sessions then
      (db, if db.sessions[s.sessionId] == s then Ok(s) else Err(SessionConflict))
    else (db.(sessions := db.sessions[s.sessionId := s]), Ok(s))
  }

  function AppendEvent(p: Scheme, db: Db, e: LiveEvent): (Db, Result<Appended, LiveError>) {
    var session := GetSession(db, e.sessionId);
    if session.Err? then (db, Err(session.error))
    else if session.value.closed then (db, Err(SessionAlreadyClosed))
    else
      var existing := FindEvent(db.events, e.eventId);
      if existing.Some? then
        (db, if CanonicalBytes(EventJson(existing.value)) == CanonicalBytes(EventJson(e))
             then Ok(Appended(true, e)) else Err(EventConflict))
      else if !VerifyLiveEvent(p, e) then (db, Err(EventHashMismatch))
      else if e.sequence != session.value.nextSequence then (db, Err(SequenceGap))
      else if e.previousHash != session.value.head then (db, Err(HashChainBroken))
      else if PositionTaken(db.events, e.sessionId, e.sequence) then (db, Err(IntegrityError))
      else
        var s := session.value.(nextSequence := e.sequence + 1, head := e.eventHash);
        (db.(events := db.events + [e], sessions := db.sessions[e.sessionId := s]), Ok(Appended(false, e)))
  }

  function CloseSession(db: Db, sessionId: string, closedAt: string): (Db, Result<Session, LiveError>) {
    var session := GetSession(db, sessionId);
    if session.Err? then (db, session)
    else if session.value.closed then (db, session)
    else
      var s := session.value.(closed := true, closedAt := Some(closedAt));
      (db.(sessions := db.sessions[sessionId := s]), Ok(s))
  }

  function SaveBundle(db: Db, b: Bundle): (Db, Result<Bundle, LiveError>) {
    var key := (b.sessionId, b.revision);
    if key in db.bundles then
      (db, if db.bundles[key].bundleHash == b.bundleHash then Ok(db.bundles[key]) else Err(BundleRevisionConflict))
    else (db.(bundles := db.bundles[key := b]), Ok(b))
  }

  // ---------------------------------------------------------------- artifacts

  type Artifacts = map<string, bytes>

  /** `path_for` accepts `sha256:` and 64 hexadecimal digits. */
  predicate ValidDigest(digest: string) {
    "sha256:" <= digest && |digest| == 71
  }

  function PutArtifact(p: Scheme, files: Artifacts, data: bytes): (Artifacts, Result<string, LiveError>) {
    var digest := p.digest(data);
    if !ValidDigest(digest) then (files, Err(InvalidArtifactHash))
    else if digest in files && files[digest] != data then (files, Err(ArtifactConflict))
    else (files[digest := data], Ok(digest))
  }

  function GetArtifact(p: Scheme, files: Artifacts, digest: string): Result<bytes, LiveError> {
    if !ValidDigest(digest) then Err(InvalidArtifactHash)
    else if digest !in files then Err(ArtifactMissing)
    else if p.digest(files[digest]) != digest then Err(ArtifactHashMismatch)
    else Ok(files[digest])
  }

  /** One open session accepts the event at its next place and head, and moves past it; the others stay. */
  predicate MovesOn(before: map<string, Session>, after: map<string, Session>, e: LiveEvent) {
    && e.sessionId in before && e.sessionId in after && after - {e.sessionId} == before - {e.sessionId}
    && !before[e.sessionId].closed && e.sequence == before[e.sessionId].nextSequence
    && e.previousHash == before[e.sessionId].head
    && after[e.sessionId] == before[e.sessionId].(nextSequence := e.sequence + 1, head := e.eventHash)
  }

  // ---------------------------------------------------------------- the classes that hold them

  class LocalArtifactStore {
    const p: Scheme
    var files: Artifacts

    constructor (p: Scheme)
      ensures this.p == p && files == map[]
    {
      this.p := p;
      files := map[];
    }

    /** Every file lies under its own digest. */
    predicate Addressed()
      reads this
    {
      forall d | d in files :: ValidDigest(d) && p.digest(files[d]) == d
    }

    /** Nothing stored is lost or changed; what is put is stored under its digest, or nothing is. */
    method Put(data: bytes) returns (r: Result<string, LiveError>)
      modifies this
      ensures (files, r) == PutArtifact(p, old(files), data)
      ensures forall d | d in old(files) :: d in files && files[d] == old(files)[d]
      ensures if r.Ok? then files == old(files)[p.digest(data) := data] && r.value == p.digest(data)
              else files == old(files)
      ensures old(Addressed()) ==> Addressed()
    {
      var digest := p.digest(data);
      if !ValidDigest(digest) {
        return Err(InvalidArtifactHash);
      }
      if digest in files && files[digest] != data {
        return Err(ArtifactConflict);
      }
      assert digest in files ==> files[digest := data] == files;
      if digest !in files {
        files := files[digest := data];
      }
      return Ok(digest);
    }

    /** What is given out has the digest it was asked for; among files under their digests nothing is refused. */
    method Get(digest: string) returns (r: Result<bytes, LiveError>)
      ensures r == GetArtifact(p, files, digest)
      ensures r.Ok? ==> digest in files && r.value == files[digest] && p.digest(r.value) == digest
      ensures Addressed() ==> (r.Ok? <==> digest in files)
    {
      if !ValidDigest(digest) {
        return Err(InvalidArtifactHash);
      }
      if digest !in files {
        return Err(ArtifactMissing);
      }
      if p.digest(files[digest]) != digest {
        return Err(ArtifactHashMismatch);
      }
      return Ok(files[digest]);
    }
  }

  class LiveMetadataStore {
    const p: Scheme
    var sessions: map<string, Session>
    var events: seq<LiveEvent>
    var bundles: map<(string, nat), Bundle>

    ghost function View(): Db
      reads this
    {
      Db(sessions, events, bundles)
    }

    constructor (p: Scheme)
      ensures this.p == p && View() == Db(map[], [], map[])
    {
      this.p := p;
      sessions, events, bundles := map[], [], map[];
    }

    /** An existing session never changes; success means that the session is there just as given. */
    method Create(value: Session) returns (r: Result<Session, LiveError>)
      modifies this
      ensures (View(), r) == CreateSession(old(View()), value)
      ensures forall s | s in old(sessions) :: s in sessions && sessions[s] == old(sessions)[s]
      ensures r.Ok? <==> (value.sessionId in old(sessions) ==> old(sessions)[value.sessionId] == value)
      ensures r.Ok? ==> value.sessionId in sessions && sessions[value.sessionId] == value
      ensures sessions.Keys <= old(sessions).Keys + {value.sessionId} && events == old(events)
              && bundles == old(bundles)
    {
      if value.sessionId in sessions {
        if sessions[value.sessionId] == value {
          return Ok(value);
        }
        return Err(SessionConflict);
      }
      sessions := sessions[value.sessionId := value];
      return Ok(value);
    }

    /** At most one event is added, at the end, and only its session moves on, which was open and at that very
        place. A duplicate is an event that is stored already, field for field; everything else changes nothing. */
    method Append(event: LiveEvent) returns (r: Result<Appended, LiveError>)
      modifies this
      ensures (View(), r) == AppendEvent(p, old(View()), event)
      ensures !(r.Ok? && !r.value.duplicate) ==> View() == old(View())
      ensures (r.Ok? && !r.value.duplicate ==>
                 && events == old(events) + [event] && bundles == old(bundles)
                 && (forall e | e in old(events) :: e.eventId != event.eventId)
                 && MovesOn(old(sessions), sessions, event))
      ensures r.Ok? ==> r.value.event == event && event in events
    {
      if event.sessionId in sessions {
        var known := FindEvent(events, event.eventId);
        if known.Some? {
          EventBytesDecideEquality(known.value, event);
        }
      }
      if event.sessionId !in sessions {
        return Err(SessionNotFound);
      }
      var session := sessions[event.sessionId];
      if session.closed {
        return Err(SessionAlreadyClosed);
      }
      var existing := FindEvent(events, event.eventId);
      if existing.Some? {
        if CanonicalBytes(EventJson(existing.value)) == CanonicalBytes(EventJson(event)) {
          return Ok(Appended(true, event));
        }
        return Err(EventConflict);
      }
      if !VerifyLiveEvent(p, event) {
        return Err(EventHashMismatch);
      }
      if event.sequence != session.nextSequence {
        return Err(SequenceGap);
      }
      if event.previousHash != session.head {
        return Err(HashChainBroken);
      }
      if PositionTaken(events, event.sessionId, event.sequence) {
        return Err(IntegrityError);
      }
      events := events + [event];
      session := session.(nextSequence := event.sequence + 1, head := event.eventHash);
      sessions := sessions[event.sessionId := session];
      return Ok(Appended(false, event));
    }

    /** Closing is final: a closed session keeps its first closing time, and an open one keeps all but its status. */
    method Close(sessionId: string, closedAt: string) returns (r: Result<Session, LiveError>)
      modifies this
      ensures (View(), r) == CloseSession(old(View()), sessionId, closedAt)
      ensures r.Ok? <==> sessionId in old(sessions)
      ensures r.Ok? ==> sessionId in sessions && sessions[sessionId] == r.value && r.value.closed
      ensures sessionId in old(sessions) && old(sessions)[sessionId].closed ==> View() == old(View())
      ensures (r.Ok? ==>
                 r.value.(closed := false, closedAt := None)
                   == old(sessions)[sessionId].(closed := false, closedAt := None))
      ensures sessions - {sessionId} == old(sessions) - {sessionId} && events == old(events) && bundles == old(bundles)
    {
      if sessionId !in sessions {
        return Err(SessionNotFound);
      }
      var session := sessions[sessionId];
      if session.closed {
        return Ok(session);
      }
      session := session.(closed := true, closedAt := Some(closedAt));
      sessions := sessions[sessionId := session];
      return Ok(session);
    }

    /** A revision once stored never changes; success means that the stored revision has the hash of this one. */
    method Save(bundle: Bundle) returns (r: Result<Bundle, LiveError>)
      modifies this
      ensures (View(), r) == SaveBundle(old(View()), bundle)
      ensures forall k | k in old(bundles) :: k in bundles && bundles[k] == old(bundles)[k]
      ensures (r.Ok? ==>
                 && (bundle.sessionId, bundle.revision) in bundles
                 && bundles[(bundle.sessionId, bundle.revision)] == r.value && r.value.bundleHash == bundle.bundleHash)
      ensures r.Err? ==> View() == old(View()) && (bundle.sessionId, bundle.revision) in bundles
      ensures sessions == old(sessions) && events == old(events)
    {
      var key := (bundle.sessionId, bundle.revision);
      if key in bundles {
        if bundles[key].bundleHash == bundle.bundleHash {
          return Ok(bundles[key]);
        }
        return Err(BundleRevisionConflict);
      }
      bundles := bundles[key := bundle];
      return Ok(bundle);
    }
  }
}
