/** Resending batches: what a client that lost its connection can rely on. */
module LiveRetry {
  import opened Wrappers
  import opened Text
  import opened LiveProtocol
  import opened LiveStore
  import opened LiveEvidence
  import opened LiveGateway
  import Utf8

  /** A raw event that names the fields the gateway would fill in gets through the first comparison. */
  predicate SpelledOut(raw: RawEvent) {
    raw.sourceType.Some? && raw.occurredAt.Text?
  }

  ghost predicate AllSpelledOut(raws: seq<RawEvent>) {
    forall x | x in raws :: SpelledOut(x)
  }

  /** The store holds an event the duplicate rule matches with `raw`, and its artifact. */
  ghost predicate Committed(p: Scheme, w: World, raw: RawEvent) {
    && (raw.artifactHash.Some? ==> raw.artifactHash.value == ContentHash(p, raw.content))
    && Stored(p, w.artifacts, ContentHash(p, raw.content), raw.content)
    && (exists e | e in w.db.events :: e.eventId == raw.eventId)
    && (forall e | e in w.db.events && e.eventId == raw.eventId :: SameRawFields(e, raw))
  }

  lemma OneRowPerId(p: Scheme, w: World, x: LiveEvent, e: LiveEvent)
    requires Inv(p, w) && x in w.db.events && e in w.db.events && x.eventId == e.eventId
    ensures x == e
  {
    assert RowsOk(p, w);
  }

  lemma CommittedStays(p: Scheme, w: World, w': World, raw: RawEvent)
    requires Committed(p, w, raw) && Grows(w, w') && Inv(p, w')
    ensures Committed(p, w', raw)
  {
    var e :| e in w.db.events && e.eventId == raw.eventId;
    assert e in w'.db.events;
    forall x | x in w'.db.events && x.eventId == raw.eventId
      ensures SameRawFields(x, raw)
    {
      OneRowPerId(p, w', x, e);
    }
  }

  /** A committed event that is sent again, to any session in any later state, changes nothing. */
  lemma CommittedIsDuplicate(p: Scheme, w: World, sessionId: string, raw: RawEvent)
    requires Committed(p, w, raw)
    ensures var (w', r) := IngestOne(p, w, sessionId, raw);
            w' == w && r.Ok? && r.value.duplicate && SameRawFields(r.value.event, raw)
  {
    var digest := ContentHash(p, raw.content);
    assert w.artifacts[digest := Utf8.Encode(raw.content)] == w.artifacts;
  }

  /** The new event of an accepted append. */
  lemma RecordAccepts(p: Scheme, db: Db, sessionId: string, raw: RawEvent)
    requires SpelledOut(raw)
    ensures var (db', r) := Record(p, db, sessionId, raw);
            && (r.Ok? && r.value.duplicate ==> db' == db)
            && (r.Ok? && !r.value.duplicate ==>
                  && db'.events == db.events + [r.value.event] && SameRawFields(r.value.event, raw)
                  && (forall x | x in db.events :: x.eventId != raw.eventId))
  {
  }

  /** The store-level duplicate answer cannot arise for it unless the first comparison would give it too. */
  lemma DuplicateMeansSameFields(p: Scheme, w: World, sessionId: string, raw: RawEvent)
    requires SpelledOut(raw)
    requires Record(p, w.db, sessionId, raw).1.Ok? && Record(p, w.db, sessionId, raw).1.value.duplicate
    ensures FindEvent(w.db.events, raw.eventId).Some?
    ensures SameRawFields(FindEvent(w.db.events, raw.eventId).value, raw)
  {
    var x := FindEvent(w.db.events, raw.eventId);
    if x.Some? && !SameRawFields(x.value, raw) {
      EventBytesDecideEquality(x.value, Built(p, w.db.sessions[sessionId], sessionId, raw));
    }
  }

  /** An accepted event is committed. */
  lemma AcceptedIsCommitted(p: Scheme, w: World, sessionId: string, raw: RawEvent)
    requires Inv(p, w) && SpelledOut(raw) && IngestOne(p, w, sessionId, raw).1.Ok?
    ensures Committed(p, IngestOne(p, w, sessionId, raw).0, raw)
  {
    var (files, put) := PutArtifact(p, w.artifacts, Utf8.Encode(raw.content));
    var (db', r) := Record(p, w.db, sessionId, raw);
    var w' := World(db', files);
    RecordAccepts(p, w.db, sessionId, raw);
    assert Stored(p, files, ContentHash(p, raw.content), raw.content);
    if r.value.duplicate {
      DuplicateMeansSameFields(p, w, sessionId, raw);
      var x := FindEvent(w.db.events, raw.eventId).value;
      forall e | e in w.db.events && e.eventId == raw.eventId
        ensures e == x
      {
        OneRowPerId(p, w, e, x);
      }
    } else {
      assert r.value.event in db'.events;
    }
  }

  /** Accepting one more item keeps what was committed. */
  lemma OneMoreCommitted(p: Scheme, w: World, sessionId: string, front: seq<RawEvent>, last: RawEvent)
    requires Inv(p, w) && AllSpelledOut(front + [last]) && IngestOne(p, w, sessionId, last).1.Ok?
    requires forall x | x in front :: Committed(p, w, x)
    ensures forall x | x in front + [last] :: Committed(p, IngestOne(p, w, sessionId, last).0, x)
  {
    var after := IngestOne(p, w, sessionId, last).0;
    assert (front + [last])[|front|] == last;
    AcceptedIsCommitted(p, w, sessionId, last);
    IngestOneGrows(p, w, sessionId, last);
    IngestOneKeepsInv(p, w, sessionId, last);
    forall x | x in front
      ensures Committed(p, after, x)
    {
      CommittedStays(p, w, after, x);
    }
  }

  /** Everything accepted in a batch is committed when the batch ends, well or badly. */
  lemma {:induction false} BatchCommits(p: Scheme, w: World, sessionId: string, raws: seq<RawEvent>)
    requires Inv(p, w) && AllSpelledOut(raws) && IngestAll(p, w, sessionId, raws).1.Ok?
    ensures forall x | x in raws :: Committed(p, IngestAll(p, w, sessionId, raws).0, x)
  {
    if raws != [] {
      var n := |raws| - 1;
      var front, last := raws[..n], raws[n];
      var w1 := IngestAll(p, w, sessionId, front).0;
      assert raws == front + [last];
      BatchCommits(p, w, sessionId, front);
      IngestAllKeepsInv(p, w, sessionId, front);
      OneMoreCommitted(p, w1, sessionId, front, last);
    }
  }

  /** A batch whose items are all committed is answered with duplicates only and changes nothing. */
  lemma {:induction false} ResendCommitted(p: Scheme, w: World, sessionId: string, raws: seq<RawEvent>)
    requires forall x | x in raws :: Committed(p, w, x)
    ensures IngestAll(p, w, sessionId, raws).0 == w && IngestAll(p, w, sessionId, raws).1.Ok?
    ensures IngestAll(p, w, sessionId, raws).1.value.accepted == 0
    ensures IngestAll(p, w, sessionId, raws).1.value.duplicates == |raws|
  {
    if raws != [] {
      var n := |raws| - 1;
      assert raws == raws[..n] + [raws[n]];
      ResendCommitted(p, w, sessionId, raws[..n]);
      CommittedIsDuplicate(p, w, sessionId, raws[n]);
    }
  }

  /** Resending a batch that went through, in any later state the gateway reaches: closed, finalized,
      extended by others. Nothing changes and every item is reported as a duplicate. */
  lemma {:induction false} ResendLater(p: Scheme, w: World, sessionId: string, raws: seq<RawEvent>,
                                       later: seq<GatewayStep>, target: string)
    requires Inv(p, w) && AllSpelledOut(raws) && IngestAll(p, w, sessionId, raws).1.Ok?
    ensures var w' := RunFrom(p, IngestAll(p, w, sessionId, raws).0, later);
            var (w'', r) := IngestAll(p, w', target, raws);
            w'' == w' && r.Ok? && r.value.accepted == 0 && r.value.duplicates == |raws|
  {
    var w1 := IngestAll(p, w, sessionId, raws).0;
    BatchCommits(p, w, sessionId, raws);
    IngestAllKeepsInv(p, w, sessionId, raws);
    RunFromGrows(p, w1, later);
    var w' := RunFrom(p, w1, later);
    forall x | x in raws
      ensures Committed(p, w', x)
    {
      CommittedStays(p, w1, w', x);
    }
    ResendCommitted(p, w', target, raws);
  }

  function RunFrom(p: Scheme, w: World, steps: seq<GatewayStep>): World {
    if steps == [] then w
    else Apply(p, RunFrom(p, w, steps[..|steps| - 1]), steps[|steps| - 1])
  }

  lemma {:induction false} RunFromGrows(p: Scheme, w: World, steps: seq<GatewayStep>)
    requires Inv(p, w)
    ensures Inv(p, RunFrom(p, w, steps)) && Grows(w, RunFrom(p, w, steps))
  {
    if steps != [] {
      var w1 := RunFrom(p, w, steps[..|steps| - 1]);
      RunFromGrows(p, w, steps[..|steps| - 1]);
      StepKeepsInv(p, w1, steps[|steps| - 1]);
      StepGrows(p, w1, steps[|steps| - 1]);
      GrowsTransitive(w, w1, Apply(p, w1, steps[|steps| - 1]));
    }
  }

  /** The loop after one more item. */
  function Continue(p: Scheme, before: (World, Result<Report, LiveError>), sessionId: string, raw: RawEvent)
    : (World, Result<Report, LiveError>)
  {
    if before.1.Err? then before
    else
      var (w, r) := IngestOne(p, before.0, sessionId, raw);
      (w, if r.Err? then Err(r.error) else Ok(before.1.value.Add(r.value)))
  }

  lemma IngestContinues(p: Scheme, w: World, sessionId: string, raws: seq<RawEvent>, n: nat)
    requires 0 < n <= |raws|
    ensures IngestAll(p, w, sessionId, raws[..n])
         == Continue(p, IngestAll(p, w, sessionId, raws[..n - 1]), sessionId, raws[n - 1])
  {
    assert raws[..n][..n - 1] == raws[..n - 1];
  }

  lemma ContinueAgrees(p: Scheme, a: (World, Result<Report, LiveError>), b: (World, Result<Report, LiveError>),
                       sessionId: string, raw: RawEvent)
    requires SameOutcome(a, b)
    ensures SameOutcome(Continue(p, a, sessionId, raw), Continue(p, b, sessionId, raw))
  {
  }

  /** The same store, and success or the same error. */
  ghost predicate SameOutcome(a: (World, Result<Report, LiveError>), b: (World, Result<Report, LiveError>)) {
    a.0 == b.0 && (a.1.Ok? <==> b.1.Ok?) && (a.1.Err? ==> a.1.error == b.1.error)
  }

  lemma OutcomesStayEqual(p: Scheme, a: World, b: World, sessionId: string, raws: seq<RawEvent>, n: nat)
    requires 0 < n <= |raws|
    requires SameOutcome(IngestAll(p, a, sessionId, raws[..n - 1]), IngestAll(p, b, sessionId, raws[..n - 1]))
    ensures SameOutcome(IngestAll(p, a, sessionId, raws[..n]), IngestAll(p, b, sessionId, raws[..n]))
  {
    IngestContinues(p, a, sessionId, raws, n);
    IngestContinues(p, b, sessionId, raws, n);
    ContinueAgrees(p, IngestAll(p, a, sessionId, raws[..n - 1]), IngestAll(p, b, sessionId, raws[..n - 1]),
                   sessionId, raws[n - 1]);
  }

  lemma PrefixResent(p: Scheme, w: World, sessionId: string, raws: seq<RawEvent>)
    requires Inv(p, w) && AllSpelledOut(raws) && IngestAll(p, w, sessionId, raws).1.Ok?
    ensures SameOutcome(IngestAll(p, IngestAll(p, w, sessionId, raws).0, sessionId, raws),
                        IngestAll(p, w, sessionId, raws))
  {
    BatchCommits(p, w, sessionId, raws);
    ResendCommitted(p, IngestAll(p, w, sessionId, raws).0, sessionId, raws);
  }

  lemma {:induction false} OutcomesConverge(p: Scheme, a: World, b: World, sessionId: string, raws: seq<RawEvent>,
                                            k: nat, n: nat)
    requires k <= n <= |raws|
    requires SameOutcome(IngestAll(p, a, sessionId, raws[..k]), IngestAll(p, b, sessionId, raws[..k]))
    ensures SameOutcome(IngestAll(p, a, sessionId, raws[..n]), IngestAll(p, b, sessionId, raws[..n]))
    decreases n
  {
    if k < n {
      OutcomesConverge(p, a, b, sessionId, raws, k, n - 1);
      OutcomesStayEqual(p, a, b, sessionId, raws, n);
    }
  }

  /** Retry converges: losing the connection after any prefix and sending the whole batch again ends
      in exactly the state of one uninterrupted send, error or not. */
  lemma RetryConverges(p: Scheme, w: World, sessionId: string, raws: seq<RawEvent>, k: nat)
    requires Inv(p, w) && AllSpelledOut(raws) && k <= |raws|
    requires IngestAll(p, w, sessionId, raws[..k]).1.Ok?
    ensures var w1 := IngestAll(p, w, sessionId, raws[..k]).0;
            SameOutcome(IngestAll(p, w1, sessionId, raws), IngestAll(p, w, sessionId, raws))
  {
    assert AllSpelledOut(raws[..k]);
    PrefixResent(p, w, sessionId, raws[..k]);
    OutcomesConverge(p, IngestAll(p, w, sessionId, raws[..k]).0, w, sessionId, raws, k, |raws|);
    assert raws[..|raws|] == raws;
  }

  /** Rebuilt at the later position, a raw event gives the stored one again only if it fixes its own place in the
      chain. A previous hash taken from the session head would have to be the event's own hash. */
  predicate FixesPlace(raw: RawEvent, stored: LiveEvent) {
    raw.sequence.Some? && (raw.previousHash.Some? || Lower(stored.eventHash) == stored.previousHash)
  }

  /** An accepted append: the event is at the end, its session still open. */
  lemma AcceptedShape(p: Scheme, w: World, sessionId: string, raw: RawEvent)
    requires var r := IngestOne(p, w, sessionId, raw).1; r.Ok? && !r.value.duplicate
    ensures var (w1, r) := IngestOne(p, w, sessionId, raw);
            && raw.category.Some? && sessionId in w.db.sessions && sessionId in w1.db.sessions
            && r.value.event == Built(p, w.db.sessions[sessionId], sessionId, raw)
            && w1.db.events == w.db.events + [r.value.event] && !w1.db.sessions[sessionId].closed
            && (raw.artifactHash.Some? ==> raw.artifactHash.value == ContentHash(p, raw.content))
            && Stored(p, w1.artifacts, ContentHash(p, raw.content), raw.content)
  {
  }

  lemma ArtifactAlreadyStored(p: Scheme, w: World, sessionId: string, raw: RawEvent)
    requires raw.artifactHash.Some? ==> raw.artifactHash.value == ContentHash(p, raw.content)
    requires Stored(p, w.artifacts, ContentHash(p, raw.content), raw.content)
    ensures IngestOne(p, w, sessionId, raw)
         == (World(Record(p, w.db, sessionId, raw).0, w.artifacts), Record(p, w.db, sessionId, raw).1)
  {
    assert w.artifacts[ContentHash(p, raw.content) := Utf8.Encode(raw.content)] == w.artifacts;
  }

  lemma FirstComparison(p: Scheme, session: Session, sessionId: string, raw: RawEvent)
    requires raw.category.Some?
    ensures SameRawFields(Built(p, session, sessionId, raw), raw) <==> SpelledOut(raw)
  {
  }

  /** The event rebuilt one position later, from the head the first one left. */
  lemma SecondComparison(p: Scheme, s0: Session, s1: Session, sessionId: string, raw: RawEvent)
    requires raw.category.Some? && s1.sourceType == s0.sourceType
    requires var e := Built(p, s0, sessionId, raw); s1.nextSequence == e.sequence + 1 && s1.head == e.eventHash
    ensures var e := Built(p, s0, sessionId, raw);
            Built(p, s1, sessionId, raw) == e <==> FixesPlace(raw, e)
  {
    var e, e' := Built(p, s0, sessionId, raw), Built(p, s1, sessionId, raw);
    assert e' == e ==> e'.sequence == e.sequence && e'.previousHash == e.previousHash;
  }

  /** What the store answers when the first comparison fails. */
  lemma Resubmitted(p: Scheme, db: Db, sessionId: string, raw: RawEvent, x: LiveEvent)
    requires FindEvent(db.events, raw.eventId) == Some(x) && !SameRawFields(x, raw)
    requires sessionId in db.sessions && !db.sessions[sessionId].closed && raw.category.Some?
    ensures var e := Built(p, db.sessions[sessionId], sessionId, raw);
            Record(p, db, sessionId, raw) == (db, if e == x then Ok(Appended(true, x)) else Err(EventConflict))
  {
    EventBytesDecideEquality(x, Built(p, db.sessions[sessionId], sessionId, raw));
  }

  lemma AcceptedSession(p: Scheme, w: World, sessionId: string, raw: RawEvent)
    requires var r := IngestOne(p, w, sessionId, raw).1; r.Ok? && !r.value.duplicate
    ensures var (w1, r) := IngestOne(p, w, sessionId, raw);
            && sessionId in w.db.sessions && sessionId in w1.db.sessions
            && w1.db.sessions[sessionId].sourceType == w.db.sessions[sessionId].sourceType
            && w1.db.sessions[sessionId].nextSequence == r.value.event.sequence + 1
            && w1.db.sessions[sessionId].head == r.value.event.eventHash
  {
  }

  lemma AcceptedIsFound(p: Scheme, w: World, sessionId: string, raw: RawEvent)
    requires Inv(p, w)
    requires var r := IngestOne(p, w, sessionId, raw).1; r.Ok? && !r.value.duplicate
    ensures var (w1, r) := IngestOne(p, w, sessionId, raw); FindEvent(w1.db.events, raw.eventId) == Some(r.value.event)
  {
    var (w1, r) := IngestOne(p, w, sessionId, raw);
    AcceptedShape(p, w, sessionId, raw);
    assert r.value.event in w1.db.events;
    IngestOneKeepsInv(p, w, sessionId, raw);
    assert RowsOk(p, w1);
  }

  /** Sending an accepted event again, just as it was, is a harmless duplicate exactly when it was spelled out or
      fixes its own place in the chain; otherwise the gateway refuses it. Nothing is stored either way. */
  lemma ResendHarmlessIff(p: Scheme, w: World, sessionId: string, raw: RawEvent)
    requires Inv(p, w)
    requires var r := IngestOne(p, w, sessionId, raw).1; r.Ok? && !r.value.duplicate
    ensures var (w1, r1) := IngestOne(p, w, sessionId, raw);
            IngestOne(p, w1, sessionId, raw)
            == (w1, if SpelledOut(raw) || FixesPlace(raw, r1.value.event) then Ok(Appended(true, r1.value.event))
                    else Err(EventConflict))
  {
    var (w1, r) := IngestOne(p, w, sessionId, raw);
    var e := r.value.event;
    AcceptedShape(p, w, sessionId, raw);
    AcceptedSession(p, w, sessionId, raw);
    AcceptedIsFound(p, w, sessionId, raw);
    FirstComparison(p, w.db.sessions[sessionId], sessionId, raw);
    ArtifactAlreadyStored(p, w1, sessionId, raw);
    if !SameRawFields(e, raw) {
      Resubmitted(p, w1.db, sessionId, raw, e);
      SecondComparison(p, w.db.sessions[sessionId], w1.db.sessions[sessionId], sessionId, raw);
    }
  }
}
