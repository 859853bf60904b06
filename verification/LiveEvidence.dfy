/** Finalizing a closed session into an evidence bundle, and what keeps that possible. */
module LiveEvidence {
  import opened Wrappers
  import opened Text
  import opened LiveProtocol
  import opened LiveStore
  import Utf8

  datatype World = World(db: Db, artifacts: Artifacts)

  function HeadOf(es: seq<LiveEvent>): string {
    if es == [] then ZERO_HASH else es[|es| - 1].eventHash
  }

  function ReferenceOf(e: LiveEvent): Reference {
    Reference(e.eventId, e.sequence, e.category, e.eventHash, e.artifactHash)
  }

  function References(es: seq<LiveEvent>): (rs: seq<Reference>)
    ensures |rs| == |es|
    ensures forall i | 0 <= i < |es| :: rs[i] == ReferenceOf(es[i])
  {
    if es == [] then [] else References(es[..|es| - 1]) + [ReferenceOf(es[|es| - 1])]
  }

  /** How often each category occurs. */
  function CountsOf(es: seq<LiveEvent>): (c: Counts)
    ensures c.Total() == |es|
  {
    if es == [] then Counts(0, 0, 0) else CountsOf(es[..|es| - 1]).Add(es[|es| - 1].category)
  }

  /** The bundle the listed events call for. */
  function BundleFor(p: Scheme, sessionId: string, revision: nat, finalizedAt: string, es: seq<LiveEvent>): Bundle {
    var b := Bundle(sessionId, revision, finalizedAt, |es|, HeadOf(es), CountsOf(es), References(es), "");
    b.(bundleHash := BundleHash(p, b))
  }

  /** The error the finalization loop raises on event `i`, if any. */
  function EventFault(p: Scheme, files: Artifacts, es: seq<LiveEvent>, i: nat): Option<LiveError>
    requires i < |es|
  {
    var e := es[i];
    if e.sequence != i + 1 then Some(SequenceGap)
    else if e.previousHash != HeadOf(es[..i]) || !VerifyLiveEvent(p, e) then Some(HashChainBroken)
    else
      var artifact := GetArtifact(p, files, e.artifactHash);
      if artifact.Err? then Some(artifact.error)
      else if e.artifactHash != ContentHash(p, e.content) then Some(ArtifactContentMismatch)
      else None
  }

  /** The error of the first faulty event. */
  function FirstFault(p: Scheme, files: Artifacts, es: seq<LiveEvent>, i: nat): (r: Option<LiveError>)
    requires i <= |es|
    ensures r.None? <==> forall k | i <= k < |es| :: EventFault(p, files, es, k).None?
    decreases |es| - i
  {
    if i == |es| then None
    else
      var f := EventFault(p, files, es, i);
      if f.Some? then f else FirstFault(p, files, es, i + 1)
  }

  function Saved(w: World, b: Bundle): (r: (World, Result<Bundle, LiveError>))
    ensures r.1.Err? ==> r.0 == w && r.1.error == BundleRevisionConflict
    ensures r.1.Err? <==>
            ((b.sessionId, b.revision) in w.db.bundles
            && w.db.bundles[(b.sessionId, b.revision)].bundleHash != b.bundleHash)
  {
    var (db, r) := SaveBundle(w.db, b);
    (w.(db := db), r)
  }

  /** The checks of finalization: the session's events, or the first error. */
  function Checked(p: Scheme, db: Db, files: Artifacts, sessionId: string): Result<seq<LiveEvent>, LiveError> {
    var session := GetSession(db, sessionId);
    if session.Err? then Err(session.error)
    else if !session.value.closed then Err(SessionNotClosed)
    else
      var es := ListEvents(db, sessionId, 0);
      var fault := FirstFault(p, files, es, 0);
      if fault.Some? then Err(fault.value)
      else if HeadOf(es) != session.value.head then Err(HashChainBroken)
      else Ok(es)
  }

  function Finalize(p: Scheme, w: World, sessionId: string, revision: nat, finalizedAt: string)
    : (World, Result<Bundle, LiveError>)
  {
    var es := Checked(p, w.db, w.artifacts, sessionId);
    if es.Err? then (w, Err(es.error))
    else Saved(w, BundleFor(p, sessionId, revision, finalizedAt, es.value))
  }

  /** The checks on one event, in the order they are made. */
  method CheckEvent(p: Scheme, artifacts: LocalArtifactStore, events: seq<LiveEvent>, i: nat, previous: string)
    returns (fault: Option<LiveError>)
    requires artifacts.p == p && i < |events| && previous == HeadOf(events[..i])
    ensures fault == EventFault(p, artifacts.files, events, i)
  {
    var event := events[i];
    if event.sequence != i + 1 {
      return Some(SequenceGap);
    }
    if event.previousHash != previous || !VerifyLiveEvent(p, event) {
      return Some(HashChainBroken);
    }
    var artifact := artifacts.Get(event.artifactHash);
    if artifact.Err? {
      return Some(artifact.error);
    }
    if p.digest(artifact.value) != event.artifactHash {
      return Some(ArtifactHashMismatch);
    }
    if event.artifactHash != p.digest(Utf8.Encode(event.content)) {
      return Some(ArtifactContentMismatch);
    }
    return None;
  }

  lemma OneMoreEvent(es: seq<LiveEvent>, i: nat)
    requires i < |es|
    ensures HeadOf(es[..i + 1]) == es[i].eventHash
    ensures CountsOf(es[..i + 1]) == CountsOf(es[..i]).Add(es[i].category)
    ensures References(es[..i + 1]) == References(es[..i]) + [ReferenceOf(es[i])]
  {
    assert es[..i + 1][..i] == es[..i];
  }

  /** The verification loop: the first fault, or head, counts and references of all events. */
  method CheckEvents(p: Scheme, artifacts: LocalArtifactStore, events: seq<LiveEvent>)
    returns (fault: Option<LiveError>, previous: string, counts: Counts, references: seq<Reference>)
    requires artifacts.p == p
    ensures fault == FirstFault(p, artifacts.files, events, 0)
    ensures fault.None? ==> previous == HeadOf(events) && counts == CountsOf(events) && references == References(events)
  {
    previous, counts, references, fault := ZERO_HASH, Counts(0, 0, 0), [], None;
    for i := 0 to |events|
      invariant fault.None?
      invariant previous == HeadOf(events[..i])
      invariant counts == CountsOf(events[..i]) && references == References(events[..i])
      invariant FirstFault(p, artifacts.files, events, 0) == FirstFault(p, artifacts.files, events, i)
    {
      fault := CheckEvent(p, artifacts, events, i, previous);
      if fault.Some? {
        return;
      }
      OneMoreEvent(events, i);
      counts := counts.Add(events[i].category);
      references := references + [ReferenceOf(events[i])];
      previous := events[i].eventHash;
    }
    assert events[..|events|] == events;
  }

  method CollectBundle(metadata: LiveMetadataStore, artifacts: LocalArtifactStore, sessionId: string,
                       revision: nat, finalizedAt: string)
    returns (r: Result<Bundle, LiveError>)
    requires metadata.p == artifacts.p
    ensures var es := Checked(metadata.p, metadata.View(), artifacts.files, sessionId);
            r == if es.Err? then Err(es.error)
              else Ok(BundleFor(metadata.p, sessionId, revision, finalizedAt, es.value))
  {
    if sessionId !in metadata.sessions {
      return Err(SessionNotFound);
    }
    var session := metadata.sessions[sessionId];
    if !session.closed {
      return Err(SessionNotClosed);
    }
    var events := ListEvents(Db(metadata.sessions, metadata.events, metadata.bundles), sessionId, 0);
    var fault, previous, counts, references := CheckEvents(metadata.p, artifacts, events);
    if fault.Some? {
      return Err(fault.value);
    }
    if previous != session.head {
      return Err(HashChainBroken);
    }
    var value := Bundle(sessionId, revision, finalizedAt, |references|, previous, counts, references, "");
    return Ok(value.(bundleHash := BundleHash(metadata.p, value)));
  }

  /** `finalize_evidence_bundle`. */
  method FinalizeEvidenceBundle(metadata: LiveMetadataStore, artifacts: LocalArtifactStore, sessionId: string,
                                revision: nat, finalizedAt: string)
    returns (r: Result<Bundle, LiveError>)
    requires metadata.p == artifacts.p
    modifies metadata
    ensures artifacts.files == old(artifacts.files)
    ensures (World(metadata.View(), artifacts.files), r)
         == Finalize(metadata.p, World(old(metadata.View()), artifacts.files), sessionId, revision, finalizedAt)
  {
    r := CollectBundle(metadata, artifacts, sessionId, revision, finalizedAt);
    if r.Ok? {
      r := metadata.Save(r.value);
    }
  }

  // ---------------------------------------------------------------- the invariant of the live store

  ghost predicate LinkOk(p: Scheme, sessionId: string, es: seq<LiveEvent>, i: nat)
    requires i < |es|
  {
    && es[i].sessionId == sessionId && es[i].sequence == i + 1
    && es[i].previousHash == HeadOf(es[..i]) && VerifyLiveEvent(p, es[i])
  }

  /** One session's events: numbered from 1, each naming the one before it, each verified. */
  ghost predicate Chain(p: Scheme, sessionId: string, es: seq<LiveEvent>) {
    forall i | 0 <= i < |es| :: LinkOk(p, sessionId, es, i)
  }

  ghost predicate SessionOk(p: Scheme, db: Db, sessionId: string)
    requires sessionId in db.sessions
  {
    var s, es := db.sessions[sessionId], EventsOf(db.events, sessionId);
    && s.sessionId == sessionId && Chain(p, sessionId, es)
    && s.nextSequence == |es| + 1 && s.head == HeadOf(es)
    && (s.closed <==> s.closedAt.Some?)
  }

  ghost predicate SessionsOk(p: Scheme, db: Db) {
    forall s | s in db.sessions :: SessionOk(p, db, s)
  }

  ghost predicate Stored(p: Scheme, files: Artifacts, digest: string, content: string) {
    && digest == ContentHash(p, content) && ValidDigest(digest)
    && digest in files && files[digest] == Utf8.Encode(content)
  }

  ghost predicate RowsOk(p: Scheme, w: World) {
    && (forall e | e in w.db.events :: e.sessionId in w.db.sessions)
    && (forall e | e in w.db.events :: Stored(p, w.artifacts, e.artifactHash, e.content))
    && (forall i, j | 0 <= i < j < |w.db.events| :: w.db.events[i].eventId != w.db.events[j].eventId)
  }

  /** A stored bundle is the one its closed session's events call for. */
  ghost predicate BundleOk(p: Scheme, db: Db, key: (string, nat))
    requires key in db.bundles
  {
    && key.0 in db.sessions && db.sessions[key.0].closed
    && db.bundles[key] == BundleFor(p, key.0, key.1, db.bundles[key].finalizedAt, EventsOf(db.events, key.0))
  }

  ghost predicate BundlesOk(p: Scheme, db: Db) {
    forall k | k in db.bundles :: BundleOk(p, db, k)
  }

  ghost predicate Inv(p: Scheme, w: World) {
    SessionsOk(p, w.db) && RowsOk(p, w) && BundlesOk(p, w.db)
  }

  // ---------------------------------------------------------------- listing a chain

  lemma {:induction false} EventsOfContents(events: seq<LiveEvent>, sessionId: string)
    ensures forall e | e in EventsOf(events, sessionId) :: e in events && e.sessionId == sessionId
  {
    if events != [] {
      EventsOfContents(events[..|events| - 1], sessionId);
      assert events == events[..|events| - 1] + [events[|events| - 1]];
    }
  }

  ghost predicate Numbered(es: seq<LiveEvent>, first: nat) {
    forall i | 0 <= i < |es| :: es[i].sequence == first + i
  }

  lemma {:induction false} SortNumbered(es: seq<LiveEvent>, first: nat)
    requires Numbered(es, first)
    ensures SortBySequence(es) == es
  {
    if es != [] {
      SortNumbered(es[1..], first + 1);
      assert es == [es[0]] + es[1..];
    }
  }

  lemma {:induction false} AfterNumbered(es: seq<LiveEvent>, first: nat, after: int)
    requires Numbered(es, first)
    ensures after < first ==> After(es, after) == es
    ensures first <= after + 1 <= first + |es| ==> After(es, after) == es[after + 1 - first..]
    ensures after + 1 >= first + |es| ==> After(es, after) == []
  {
    if es != [] {
      AfterNumbered(es[1..], first + 1, after);
      assert es == [es[0]] + es[1..];
    }
  }

  lemma ChainNumbered(p: Scheme, sessionId: string, es: seq<LiveEvent>)
    requires Chain(p, sessionId, es)
    ensures Numbered(es, 1)
  {
    forall i | 0 <= i < |es|
      ensures es[i].sequence == 1 + i
    {
      assert LinkOk(p, sessionId, es, i);
    }
  }

  lemma SuffixNumbered(es: seq<LiveEvent>, after: nat)
    requires Numbered(es, 1) && after <= |es|
    ensures Numbered(es[after..], after + 1)
  {
    forall i | 0 <= i < |es| - after
      ensures es[after..][i].sequence == after + 1 + i
    {
      assert es[after..][i] == es[after + i];
    }
  }

  lemma NumberedSuffix(es: seq<LiveEvent>, after: nat)
    requires Numbered(es, 1) && after <= |es|
    ensures SortBySequence(After(es, after)) == es[after..]
  {
    AfterNumbered(es, 1, after);
    SuffixNumbered(es, after);
    SortNumbered(es[after..], after + 1);
  }

  /** Readers of a chain are served exactly the events after their cursor, in order. */
  lemma ListedSuffix(p: Scheme, db: Db, sessionId: string, after: nat)
    requires sessionId in db.sessions && SessionOk(p, db, sessionId)
    requires after <= |EventsOf(db.events, sessionId)|
    ensures ListEvents(db, sessionId, after) == EventsOf(db.events, sessionId)[after..]
  {
    ChainNumbered(p, sessionId, EventsOf(db.events, sessionId));
    NumberedSuffix(EventsOf(db.events, sessionId), after);
  }

  // ---------------------------------------------------------------- what finalization can do

  lemma NoFault(p: Scheme, files: Artifacts, sessionId: string, es: seq<LiveEvent>)
    requires Chain(p, sessionId, es)
    requires forall e | e in es :: Stored(p, files, e.artifactHash, e.content)
    ensures FirstFault(p, files, es, 0).None?
  {
    forall k | 0 <= k < |es|
      ensures EventFault(p, files, es, k).None?
    {
      assert LinkOk(p, sessionId, es, k);
      assert es[k] in es;
    }
  }

  lemma ChainHasNoFault(p: Scheme, w: World, sessionId: string)
    requires Inv(p, w) && sessionId in w.db.sessions
    ensures ListEvents(w.db, sessionId, 0) == EventsOf(w.db.events, sessionId)
    ensures FirstFault(p, w.artifacts, EventsOf(w.db.events, sessionId), 0).None?
  {
    var es := EventsOf(w.db.events, sessionId);
    assert SessionOk(p, w.db, sessionId);
    ListedSuffix(p, w.db, sessionId, 0);
    EventsOfContents(w.db.events, sessionId);
    NoFault(p, w.artifacts, sessionId, es);
  }

  /** Ingest implies finalizable: in every state the gateway can reach, a closed session finalizes
      to the bundle of its events, unless that revision already holds a different bundle. */
  lemma ClosedSessionFinalizes(p: Scheme, w: World, sessionId: string, revision: nat, finalizedAt: string)
    requires Inv(p, w) && sessionId in w.db.sessions && w.db.sessions[sessionId].closed
    ensures Finalize(p, w, sessionId, revision, finalizedAt)
         == Saved(w, BundleFor(p, sessionId, revision, finalizedAt, EventsOf(w.db.events, sessionId)))
  {
    ChainHasNoFault(p, w, sessionId);
    assert SessionOk(p, w.db, sessionId);
  }

  /** What a stored bundle says: events 1 to n in order, the session's head, counts that sum to n,
      and a hash that verifies. */
  lemma BundleDescribesChain(p: Scheme, w: World, sessionId: string, revision: nat)
    requires Inv(p, w) && (sessionId, revision) in w.db.bundles
    ensures var b := w.db.bundles[(sessionId, revision)];
            var es := EventsOf(w.db.events, sessionId);
            && b.sessionId == sessionId && b.revision == revision
            && b.eventCount == |es| == |b.events| == b.counts.Total()
            && sessionId in w.db.sessions && b.head == w.db.sessions[sessionId].head
            && w.db.sessions[sessionId].nextSequence == |es| + 1
            && (forall i | 0 <= i < |es| :: b.events[i] == ReferenceOf(es[i]) && b.events[i].sequence == i + 1)
            && b.bundleHash == BundleHash(p, b)
  {
    var es := EventsOf(w.db.events, sessionId);
    assert BundleOk(p, w.db, (sessionId, revision));
    assert SessionOk(p, w.db, sessionId);
    ChainNumbered(p, sessionId, es);
  }

  /** Finalizing again with the same revision and time returns the stored bundle and changes nothing. */
  lemma FinalizeIdempotent(p: Scheme, w: World, sessionId: string, revision: nat, finalizedAt: string)
    requires Inv(p, w) && Finalize(p, w, sessionId, revision, finalizedAt).1.Ok?
    ensures var (w', r) := Finalize(p, w, sessionId, revision, finalizedAt);
            Finalize(p, w', sessionId, revision, finalizedAt) == (w', r)
  {
    ClosedSessionFinalizes(p, w, sessionId, revision, finalizedAt);
    var (w', r) := Finalize(p, w, sessionId, revision, finalizedAt);
    if w' != w {
      FinalizeKeepsInv(p, w, sessionId, revision, finalizedAt);
      ClosedSessionFinalizes(p, w', sessionId, revision, finalizedAt);
    }
  }

  // ---------------------------------------------------------------- every gateway step keeps the invariant

  /** Adding to one table leaves the facts about the others alone. */
  lemma BundleAdded(p: Scheme, db: Db, key: (string, nat), b: Bundle)
    requires SessionsOk(p, db) && BundlesOk(p, db)
    requires BundleOk(p, db.(bundles := db.bundles[key := b]), key)
    ensures SessionsOk(p, db.(bundles := db.bundles[key := b])) && BundlesOk(p, db.(bundles := db.bundles[key := b]))
  {
    var db' := db.(bundles := db.bundles[key := b]);
    forall s | s in db'.sessions
      ensures SessionOk(p, db', s)
    {
      assert SessionOk(p, db, s);
    }
    forall k | k in db'.bundles
      ensures BundleOk(p, db', k)
    {
      assert k != key ==> BundleOk(p, db, k);
    }
  }

  lemma FinalizeKeepsInv(p: Scheme, w: World, sessionId: string, revision: nat, finalizedAt: string)
    requires Inv(p, w)
    ensures Inv(p, Finalize(p, w, sessionId, revision, finalizedAt).0)
  {
    if sessionId in w.db.sessions && w.db.sessions[sessionId].closed {
      ClosedSessionFinalizes(p, w, sessionId, revision, finalizedAt);
      var key := (sessionId, revision);
      if key !in w.db.bundles {
        var b := BundleFor(p, sessionId, revision, finalizedAt, EventsOf(w.db.events, sessionId));
        BundleAdded(p, w.db, key, b);
      }
    }
  }

  /** Replacing one session row, with the events as they are. */
  lemma SessionReplaced(p: Scheme, db: Db, sessionId: string, s: Session)
    requires SessionsOk(p, db) && BundlesOk(p, db)
    requires SessionOk(p, db.(sessions := db.sessions[sessionId := s]), sessionId)
    requires sessionId in db.sessions ==> db.sessions[sessionId].closed ==> s.closed
    ensures SessionsOk(p, db.(sessions := db.sessions[sessionId := s]))
    ensures BundlesOk(p, db.(sessions := db.sessions[sessionId := s]))
  {
    var db' := db.(sessions := db.sessions[sessionId := s]);
    forall t | t in db'.sessions
      ensures SessionOk(p, db', t)
    {
      assert t != sessionId ==> SessionOk(p, db, t);
    }
    forall k | k in db'.bundles
      ensures BundleOk(p, db', k)
    {
      assert BundleOk(p, db, k);
    }
  }

  lemma CreateKeepsInv(p: Scheme, w: World, sessionId: string, sourceType: string, createdAt: string)
    requires Inv(p, w)
    ensures Inv(p, w.(db := CreateSession(w.db, BuildLiveSession(sessionId, sourceType, createdAt)).0))
  {
    if sessionId !in w.db.sessions {
      NoEvents(w.db.events, sessionId);
      SessionReplaced(p, w.db, sessionId, BuildLiveSession(sessionId, sourceType, createdAt));
    }
  }

  lemma {:induction false} NoEvents(events: seq<LiveEvent>, sessionId: string)
    requires forall e | e in events :: e.sessionId != sessionId
    ensures EventsOf(events, sessionId) == []
  {
    if events != [] {
      assert forall e | e in events[..|events| - 1] :: e in events;
      assert events[|events| - 1] in events;
      NoEvents(events[..|events| - 1], sessionId);
    }
  }

  lemma CloseKeepsInv(p: Scheme, w: World, sessionId: string, closedAt: string)
    requires Inv(p, w)
    ensures Inv(p, w.(db := CloseSession(w.db, sessionId, closedAt).0))
  {
    if sessionId in w.db.sessions && !w.db.sessions[sessionId].closed {
      assert SessionOk(p, w.db, sessionId);
      SessionReplaced(p, w.db, sessionId, w.db.sessions[sessionId].(closed := true, closedAt := Some(closedAt)));
    }
  }

  lemma EventsOfAppend(events: seq<LiveEvent>, e: LiveEvent, sessionId: string)
    ensures e.sessionId == sessionId ==> EventsOf(events + [e], sessionId) == EventsOf(events, sessionId) + [e]
    ensures e.sessionId != sessionId ==> EventsOf(events + [e], sessionId) == EventsOf(events, sessionId)
  {
    assert (events + [e])[..|events|] == events;
  }

  lemma ChainExtends(p: Scheme, sessionId: string, es: seq<LiveEvent>, e: LiveEvent)
    requires Chain(p, sessionId, es) && e.sessionId == sessionId && e.sequence == |es| + 1
    requires e.previousHash == HeadOf(es) && VerifyLiveEvent(p, e)
    ensures Chain(p, sessionId, es + [e]) && HeadOf(es + [e]) == e.eventHash
  {
    var all := es + [e];
    forall i | 0 <= i < |all|
      ensures LinkOk(p, sessionId, all, i)
    {
      assert all[..i] == es[..i];
      if i < |es| {
        assert LinkOk(p, sessionId, es, i);
      } else {
        assert es[..i] == es;
      }
    }
  }

  /** The database after an accepted append. */
  function Extended(db: Db, e: LiveEvent): Db
    requires e.sessionId in db.sessions
  {
    var s := db.sessions[e.sessionId].(nextSequence := e.sequence + 1, head := e.eventHash);
    db.(events := db.events + [e], sessions := db.sessions[e.sessionId := s])
  }

  lemma AppendKeepsSessions(p: Scheme, db: Db, e: LiveEvent)
    requires SessionsOk(p, db) && e.sessionId in db.sessions && VerifyLiveEvent(p, e)
    requires e.sequence == db.sessions[e.sessionId].nextSequence && e.previousHash == db.sessions[e.sessionId].head
    ensures SessionsOk(p, Extended(db, e))
  {
    var es := EventsOf(db.events, e.sessionId);
    assert SessionOk(p, db, e.sessionId);
    ChainExtends(p, e.sessionId, es, e);
    forall s | s in Extended(db, e).sessions
      ensures SessionOk(p, Extended(db, e), s)
    {
      EventsOfAppend(db.events, e, s);
      assert SessionOk(p, db, s);
    }
  }

  lemma AppendKeepsBundles(p: Scheme, db: Db, e: LiveEvent)
    requires BundlesOk(p, db) && e.sessionId in db.sessions && !db.sessions[e.sessionId].closed
    ensures BundlesOk(p, Extended(db, e))
  {
    forall k | k in db.bundles
      ensures BundleOk(p, Extended(db, e), k)
    {
      assert BundleOk(p, db, k);
      EventsOfAppend(db.events, e, k.0);
    }
  }

  lemma AppendKeepsRows(p: Scheme, w: World, e: LiveEvent)
    requires RowsOk(p, w) && e.sessionId in w.db.sessions && Stored(p, w.artifacts, e.artifactHash, e.content)
    requires forall x | x in w.db.events :: x.eventId != e.eventId
    ensures RowsOk(p, w.(db := Extended(w.db, e)))
  {
    var events := w.db.events + [e];
    forall i, j | 0 <= i < j < |events|
      ensures events[i].eventId != events[j].eventId
    {
      assert events[i] in w.db.events;
    }
  }

  /** An accepted append keeps everything, given that its artifact has been stored. */
  lemma AppendKeepsInv(p: Scheme, w: World, e: LiveEvent)
    requires Inv(p, w) && Stored(p, w.artifacts, e.artifactHash, e.content)
    ensures Inv(p, w.(db := AppendEvent(p, w.db, e).0))
  {
    var (db', r) := AppendEvent(p, w.db, e);
    if db' != w.db {
      assert db' == Extended(w.db, e);
      AppendKeepsSessions(p, w.db, e);
      AppendKeepsRows(p, w, e);
      AppendKeepsBundles(p, w.db, e);
    }
  }

  lemma PutKeepsInv(p: Scheme, w: World, data: bytes)
    requires Inv(p, w)
    ensures Inv(p, w.(artifacts := PutArtifact(p, w.artifacts, data).0))
  {
    var files := PutArtifact(p, w.artifacts, data).0;
    forall e | e in w.db.events
      ensures Stored(p, files, e.artifactHash, e.content)
    {
      assert Stored(p, w.artifacts, e.artifactHash, e.content);
    }
    assert RowsOk(p, w.(artifacts := files));
  }
}
