/** What a second revision of the bundle does to the observers of one session: which runs make them report
    different bundles, exactly, and one such run in full. */
module Revisions {
  import opened Wrappers
  import opened Text
  import opened Hashing
  import opened LiveProtocol
  import opened LiveSchema
  import opened LiveStore
  import opened LiveEvidence
  import opened LiveGateway
  import opened Observation
  import opened ObservationProtocol
  import opened ObservationStream
  import Utf8

  // ---------------------------------------------------------------- when an observer fetched its evidence

  lemma {:induction false} ObserversStay(u: Setup, tasks: seq<Task>, steps: seq<Step>)
    ensures |Run(u, tasks, steps).observers| == |tasks|
    ensures steps == [] ==> forall i | 0 <= i < |tasks| :: Run(u, tasks, steps).observers[i].phase.Down?
  {
    if steps != [] {
      ObserversStay(u, tasks, steps[..|steps| - 1]);
    }
  }

  /** How many steps had been taken when observer `i`, which has returned after `n` steps, fetched the evidence. */
  ghost function FetchTime(u: Setup, tasks: seq<Task>, steps: seq<Step>, n: nat, i: nat): (k: nat)
    requires n <= |steps| && i < |tasks|
    decreases n
  {
    if n == 0 then 0
    else
      ObserversStay(u, tasks, steps[..n - 1]);
      if Run(u, tasks, steps[..n - 1]).observers[i].phase.Done? then FetchTime(u, tasks, steps, n - 1, i) else n - 1
  }

  lemma BecomesDone(u: Setup, y: System, step: Step, i: nat)
    requires i < |y.observers| && Next(u, y, step).observers[i].phase.Done? && !y.observers[i].phase.Done?
    ensures step == Observe(i, ReadEvidence) && y.observers[i].phase.AskingEvidence?
    ensures var b := GetBundle(y.w.db, u.sessionId);
            b.Ok? && b.value.bundleHash == Next(u, y, step).observers[i].phase.result.bundleHash
  {
  }

  /** A result is replaced only by way of a new task. */
  lemma DoneStays(u: Setup, y: System, step: Step, i: nat)
    requires i < |y.observers| && y.observers[i].phase.Done? && Next(u, y, step).observers[i].phase.Done?
    ensures Next(u, y, step).observers[i] == y.observers[i]
  {
  }

  lemma LastOf(u: Setup, tasks: seq<Task>, steps: seq<Step>, n: nat)
    requires 0 < n <= |steps|
    ensures Run(u, tasks, steps[..n]) == Next(u, Run(u, tasks, steps[..n - 1]), steps[n - 1])
  {
    assert steps[..n][..n - 1] == steps[..n - 1];
  }

  /** At that time it asked for the evidence, and what it reports is the hash of the bundle served then. */
  lemma {:induction false} FetchedThen(u: Setup, tasks: seq<Task>, steps: seq<Step>, n: nat, i: nat)
    requires Returned(u, tasks, steps, n, i)
    ensures i < |tasks|
    ensures var k := FetchTime(u, tasks, steps, n, i);
            && k < n && steps[k] == Observe(i, ReadEvidence)
            && ServedAt(u, tasks, steps, k).Ok?
            && ServedAt(u, tasks, steps, k).value.bundleHash == ResultAt(u, tasks, steps, n, i).bundleHash
    decreases n
  {
    ObserversStay(u, tasks, steps[..n]);
    if n > 0 {
      ObserversStay(u, tasks, steps[..n - 1]);
      LastOf(u, tasks, steps, n);
      var y := Run(u, tasks, steps[..n - 1]);
      if y.observers[i].phase.Done? {
        FetchedThen(u, tasks, steps, n - 1, i);
        DoneStays(u, y, steps[n - 1], i);
      } else {
        BecomesDone(u, y, steps[n - 1], i);
      }
    }
  }

  /** The bundle served `n` steps into the run. */
  ghost function ServedAt(u: Setup, tasks: seq<Task>, steps: seq<Step>, n: nat): Result<Bundle, LiveError>
    requires n <= |steps|
  {
    GetBundle(Run(u, tasks, steps[..n]).w.db, u.sessionId)
  }

  /** Two observers that return agree exactly when the bundle served to the one and the bundle served to the
      other have the same hash: nothing else in a run can make their results differ. */
  lemma AgreementExact(u: Setup, tasks: seq<Task>, steps: seq<Step>, m: nat, i: nat, n: nat, j: nat)
    requires u.Lawful() && LowerCase(u.p)
    requires Returned(u, tasks, steps, m, i) && Returned(u, tasks, steps, n, j)
    ensures i < |tasks| && j < |tasks|
    ensures var k, l := FetchTime(u, tasks, steps, m, i), FetchTime(u, tasks, steps, n, j);
            && k < m && l < n && ServedAt(u, tasks, steps, k).Ok? && ServedAt(u, tasks, steps, l).Ok?
            && (ResultAt(u, tasks, steps, m, i) == ResultAt(u, tasks, steps, n, j)
                <==> ServedAt(u, tasks, steps, k).value.bundleHash == ServedAt(u, tasks, steps, l).value.bundleHash)
  {
    FetchedThen(u, tasks, steps, m, i);
    FetchedThen(u, tasks, steps, n, j);
    ObserversAgree(u, tasks, steps, m, i, n, j);
    var a, b := ResultAt(u, tasks, steps, m, i), ResultAt(u, tasks, steps, n, j);
    assert a == a.(bundleHash := "").(bundleHash := a.bundleHash);
    assert b == b.(bundleHash := "").(bundleHash := b.bundleHash);
  }

  // ---------------------------------------------------------------- the same, in revision numbers

  /** The bundle of the newest revision is the one served, and it is still stored at the end. */
  lemma ServedIsNewest(u: Setup, tasks: seq<Task>, steps: seq<Step>, n: nat)
    requires n <= |steps| && ServedAt(u, tasks, steps, n).Ok?
    ensures var r := LatestRevision(Run(u, tasks, steps[..n]).w.db, u.sessionId);
            var bundles := Run(u, tasks, steps).w.db.bundles;
            r.Some? && (u.sessionId, r.value) in bundles
              && bundles[(u.sessionId, r.value)] == ServedAt(u, tasks, steps, n).value
  {
    RunGrows(u, tasks, steps, n);
  }

  ghost function NewestAt(u: Setup, tasks: seq<Task>, steps: seq<Step>, n: nat): Option<nat>
    requires n <= |steps|
  {
    LatestRevision(Run(u, tasks, steps[..n]).w.db, u.sessionId)
  }

  lemma HashOfBundle(h: Hashes, b: Bundle)
    ensures BundleHash(LiveScheme(h), b) == h.Keccak256Hex(BundleBytes(b))
  {
    assert BundleMembers(b) == BundleMembers(b.(bundleHash := ""));
  }

  /** Two stored revisions whose bundles are a collision of Keccak. */
  ghost predicate Collides(h: Hashes, w: World, sessionId: string, m: nat, n: nat) {
    && (sessionId, m) in w.db.bundles && (sessionId, n) in w.db.bundles
    && var a, b := BundleBytes(w.db.bundles[(sessionId, m)]), BundleBytes(w.db.bundles[(sessionId, n)]);
       a != b && h.keccak(a) == h.keccak(b)
  }

  /** Bundles of two revisions have two hashes, or collide. */
  lemma RevisionsCollide(h: Hashes, w: World, sessionId: string, m: nat, n: nat)
    requires Inv(LiveScheme(h), w) && (sessionId, m) in w.db.bundles && (sessionId, n) in w.db.bundles && m != n
    requires w.db.bundles[(sessionId, m)].bundleHash == w.db.bundles[(sessionId, n)].bundleHash
    ensures Collides(h, w, sessionId, m, n)
  {
    var p := LiveScheme(h);
    var a, b := w.db.bundles[(sessionId, m)], w.db.bundles[(sessionId, n)];
    BundleDescribesChain(p, w, sessionId, m);
    BundleDescribesChain(p, w, sessionId, n);
    HashOfBundle(h, a);
    HashOfBundle(h, b);
    h.KeccakHexInjective(BundleBytes(a), BundleBytes(b));
    if BundleBytes(a) == BundleBytes(b) {
      BundleBytesInjective(a, b);
    }
  }

  /** With the real hashes: two observers that return agree exactly when the newest revision was the same at
      their two fetches, or the two stored bundles are a collision of Keccak. */
  lemma AgreementByRevision(h: Hashes, u: Setup, tasks: seq<Task>, steps: seq<Step>, m: nat, i: nat, n: nat, j: nat)
    requires u.Lawful() && LowerCase(u.p) && u.p == LiveScheme(h)
    requires Returned(u, tasks, steps, m, i) && Returned(u, tasks, steps, n, j)
    ensures i < |tasks| && j < |tasks|
    ensures var a, b := ResultAt(u, tasks, steps, m, i), ResultAt(u, tasks, steps, n, j);
            var k, l := FetchTime(u, tasks, steps, m, i), FetchTime(u, tasks, steps, n, j);
            && k < m && l < n
            && var q, r := NewestAt(u, tasks, steps, k), NewestAt(u, tasks, steps, l);
               && q.Some? && r.Some?
               && (q == r ==> a == b)
               && (q != r ==> a != b || Collides(h, Run(u, tasks, steps).w, u.sessionId, q.value, r.value))
  {
    AgreementExact(u, tasks, steps, m, i, n, j);
    RunsKeepInvariant(u, tasks, steps);
    var k, l := FetchTime(u, tasks, steps, m, i), FetchTime(u, tasks, steps, n, j);
    ServedIsNewest(u, tasks, steps, k);
    ServedIsNewest(u, tasks, steps, l);
    var q, r := NewestAt(u, tasks, steps, k), NewestAt(u, tasks, steps, l);
    if q != r && ResultAt(u, tasks, steps, m, i) == ResultAt(u, tasks, steps, n, j) {
      RevisionsCollide(h, Run(u, tasks, steps).w, u.sessionId, q.value, r.value);
    }
  }

  // ---------------------------------------------------------------- a run in which they differ

  /** Steps of one observer in a row. */
  function Turns(i: nat, actions: seq<Action>): seq<Step> {
    if actions == [] then [] else Turns(i, actions[..|actions| - 1]) + [Observe(i, actions[|actions| - 1])]
  }

  ghost function ActAll(u: Setup, w: World, o: Observer, actions: seq<Action>): Observer {
    if actions == [] then o
    else Act(u, w, ActAll(u, w, o, actions[..|actions| - 1]), actions[|actions| - 1])
  }

  lemma ObserverMoves(u: Setup, y: System, i: nat, o: Observer, a: Action)
    requires i < |y.observers|
    ensures Next(u, y.(observers := y.observers[i := o]), Observe(i, a))
         == y.(observers := y.observers[i := Act(u, y.w, o, a)])
  {
  }

  lemma {:induction false} RunTurns(u: Setup, tasks: seq<Task>, steps: seq<Step>, i: nat, actions: seq<Action>)
    requires i < |Run(u, tasks, steps).observers|
    ensures var y := Run(u, tasks, steps);
            Run(u, tasks, steps + Turns(i, actions))
            == y.(observers := y.observers[i := ActAll(u, y.w, y.observers[i], actions)])
  {
    if actions == [] {
      assert steps + Turns(i, actions) == steps;
    } else {
      var fewer, last := actions[..|actions| - 1], Observe(i, actions[|actions| - 1]);
      RunTurns(u, tasks, steps, i, fewer);
      assert steps + Turns(i, actions) == (steps + Turns(i, fewer)) + [last];
      RunContinues(u, tasks, steps + Turns(i, fewer), last);
      var y := Run(u, tasks, steps);
      ObserverMoves(u, y, i, ActAll(u, y.w, y.observers[i], fewer), actions[|actions| - 1]);
    }
  }

  lemma ActMore(u: Setup, w: World, o: Observer, actions: seq<Action>, a: Action)
    ensures ActAll(u, w, o, actions + [a]) == Act(u, w, ActAll(u, w, o, actions), a)
  {
    assert (actions + [a])[..|actions|] == actions;
  }

  // ---------------------------------------------------------------- the bundles it is served

  lemma SavedIsServed(w: World, b: Bundle)
    requires forall m: nat :: (b.sessionId, m) in w.db.bundles ==> m < b.revision
    ensures var db' := Saved(w, b).0.db;
            && GetBundle(db', b.sessionId) == Ok(b) && db'.sessions == w.db.sessions && db'.events == w.db.events
            && forall m: nat :: (b.sessionId, m) in db'.bundles ==> m <= b.revision
  {
    var key := (b.sessionId, b.revision);
    assert key !in w.db.bundles;
    assert Saved(w, b).0.db.bundles == w.db.bundles[key := b];
  }

  /** The bundle a new highest revision stores is the one that is served next. */
  lemma NewRevisionServed(u: Setup, w: World, n: nat, at: string)
    requires Inv(u.p, w) && Closed(u, w) && forall m: nat :: (u.sessionId, m) in w.db.bundles ==> m < n
    ensures var w' := Apply(u.p, w, FinalizeStep(u.sessionId, n, at));
            && GetBundle(w'.db, u.sessionId) == Ok(BundleFor(u.p, u.sessionId, n, at, Events(u, w)))
            && w'.db.sessions == w.db.sessions && w'.db.events == w.db.events
            && forall m: nat :: (u.sessionId, m) in w'.db.bundles ==> m <= n
  {
    var b := BundleFor(u.p, u.sessionId, n, at, Events(u, w));
    BundleKey(u.p, u.sessionId, n, at, Events(u, w));
    SavedIsServed(w, b);
    assert Apply(u.p, w, FinalizeStep(u.sessionId, n, at)) == Saved(w, b).0 by {
      ClosedSessionFinalizes(u.p, w, u.sessionId, n, at);
    }
  }

  lemma BundleKey(p: Scheme, sessionId: string, n: nat, at: string, es: seq<LiveEvent>)
    ensures var b := BundleFor(p, sessionId, n, at, es); b.sessionId == sessionId && b.revision == n
  {
  }

  lemma BundleFits(p: Scheme, sessionId: string, n: nat, at: string, es: seq<LiveEvent>)
    ensures var b := BundleFor(p, sessionId, n, at, es);
            b.bundleHash == BundleHash(p, b) && b.head == HeadOf(es) && b.eventCount == |es|
  {
  }

  // ---------------------------------------------------------------- a late revision, in general

  /** An observer about to fetch the evidence has verified the whole chain. */
  lemma AskingMeansComplete(u: Setup, w: World, o: Observer)
    requires ObserverOk(u, w, o) && o.phase.AskingEvidence?
    ensures Closed(u, w) && o.s.cursor == o.s.count == |Events(u, w)| && o.s.head == HeadOf(Events(u, w))
  {
    var es := Events(u, w);
    assert es[..|es|] == es;
  }

  /** What an observer about to fetch the evidence is served when a higher revision is finalized first. */
  lemma LateObserverResult(u: Setup, w: World, o: Observer, n: nat, at: string)
    requires Inv(u.p, w) && ObserverOk(u, w, o) && o.phase.AskingEvidence?
    requires forall m: nat :: (u.sessionId, m) in w.db.bundles ==> m < n
    ensures var es, b := Events(u, w), BundleFor(u.p, u.sessionId, n, at, Events(u, w));
            DoReadEvidence(u, Apply(u.p, w, FinalizeStep(u.sessionId, n, at)), o).phase
            == if BundleSchema(b) then Done(Observed(u.sessionId, |es|, |es|, HeadOf(es), b.bundleHash))
               else Failed(SchemaRefused)
  {
    AskingMeansComplete(u, w, o);
    NewRevisionServed(u, w, n, at);
    BundleFits(u.p, u.sessionId, n, at, Events(u, w));
    FittingEvidence(u, Apply(u.p, w, FinalizeStep(u.sessionId, n, at)), o,
                    BundleFor(u.p, u.sessionId, n, at, Events(u, w)));
  }

  lemma Fetches(u: Setup, y: System, j: nat)
    requires j < |y.observers| && y.observers[j].phase.AskingEvidence?
    ensures Next(u, y, Observe(j, ReadEvidence))
         == System(y.w, y.observers[j := DoReadEvidence(u, y.w, y.observers[j])])
  {
    assert Act(u, y.w, y.observers[j], ReadEvidence) == DoReadEvidence(u, y.w, y.observers[j]);
  }

  /** The run in which a revision is finalized and observer `j` fetches the evidence next. */
  lemma LateRun(u: Setup, tasks: seq<Task>, steps: seq<Step>, j: nat, n: nat, at: string)
    requires var y := Run(u, tasks, steps); j < |y.observers| && y.observers[j].phase.AskingEvidence?
    ensures var y := Run(u, tasks, steps);
            var w' := Apply(u.p, y.w, FinalizeStep(u.sessionId, n, at));
            Run(u, tasks, steps + [Gateway(FinalizeStep(u.sessionId, n, at))] + [Observe(j, ReadEvidence)])
            == System(w', y.observers[j := DoReadEvidence(u, w', y.observers[j])])
  {
    var g := FinalizeStep(u.sessionId, n, at);
    RunContinues(u, tasks, steps, Gateway(g));
    RunContinues(u, tasks, steps + [Gateway(g)], Observe(j, ReadEvidence));
    var y := Run(u, tasks, steps);
    Fetches(u, System(Apply(u.p, y.w, g), y.observers), j);
  }

  // ---------------------------------------------------------------- the pieces of the run

  /** A closed session without events whose row matches its schema. */
  ghost predicate Staged(u: Setup, w: World, row: Session) {
    && u.sessionId in w.db.sessions && w.db.sessions[u.sessionId] == row && w.db.events == []
    && row.closed && row.nextSequence == 1 && row.head == ZERO_HASH
  }

  /** An observer of it, once it has started. */
  ghost predicate AtStart(o: Observer) {
    o.s.cursor == 0 && o.s.count == 0 && o.s.head == ZERO_HASH
  }

  /** The stream gets its keepalive through. */
  ghost predicate Keeps(u: Setup) {
    u.Lawful() && u.size(u.body([])) <= MAX_SSE_RESPONSE_BYTES
  }

  lemma Starts(u: Setup, w: World, row: Session, o: Observer, zero: string)
    requires Staged(u, w, row) && zero == ZERO_HASH && o == Fresh(Task(0, zero))
    ensures var o' := Act(u, w, o, Start); AtStart(o') && o'.phase == Listing
  {
    ZeroHashIsLower();
    assert HeadOf(Events(u, w)[..0]) == zero && TaskCommitted(u, w, o.task);
    assert Resume(o.saved, o.task.start, o.task.initialHead) == Ok(Progress(0, zero, 0, 0, 0, 0));
    assert Act(u, w, o, Start) == DoStart(u, w, o);
  }

  lemma NothingListed(u: Setup, w: World, row: Session, after: nat)
    requires Staged(u, w, row)
    ensures ListEvents(w.db, u.sessionId, after) == []
  {
  }

  lemma FindsNothing(u: Setup, w: World, row: Session, o: Observer)
    requires Staged(u, w, row) && AtStart(o) && o.phase == Listing
    ensures var o' := Act(u, w, o, List); AtStart(o') && o'.phase == EmptyListed
  {
    NothingListed(u, w, row, o.s.cursor);
    assert Act(u, w, o, List) == DoList(u, w, o);
  }

  lemma SeesClosed(u: Setup, w: World, row: Session, o: Observer, late: bool)
    requires Staged(u, w, row) && AtStart(o) && o.phase == EmptyListed
    ensures var o' := Act(u, w, o, ReadStatus(late)); AtStart(o') && o'.phase == ClosedSeen
  {
    assert Act(u, w, o, ReadStatus(late)) == DoReadStatus(u, w, o, late);
  }

  lemma GetsKeepalive(u: Setup, w: World, row: Session, o: Observer)
    requires Staged(u, w, row) && Keeps(u) && AtStart(o) && o.phase == ClosedSeen
    ensures var o' := Act(u, w, o, Relist); AtStart(o') && o'.phase == Replaying([], true)
  {
    NothingListed(u, w, row, o.s.cursor);
    var none: seq<LiveEvent> := [];
    assert u.AllCarried(none) && u.read(u.body(none)) == Some(none);
    assert Act(u, w, o, Relist) == Deliver(u, o, none, true);
  }

  lemma EndsReplay(u: Setup, w: World, o: Observer)
    requires o.phase == Replaying([], true)
    ensures Act(u, w, o, TakeNext) == o.(phase := AskingSession)
  {
    assert Act(u, w, o, TakeNext) == DoTakeNext(u, w, o);
  }

  lemma SessionFits(u: Setup, w: World, row: Session, o: Observer)
    requires GetSession(w.db, u.sessionId) == Ok(row) && SessionSchema(row)
    requires row.closed && row.nextSequence == o.s.cursor + 1 && row.head == o.s.head
    ensures DoReadSession(u, w, o) == o.(phase := AskingEvidence)
  {
  }

  lemma ReadsSession(u: Setup, w: World, row: Session, o: Observer)
    requires Staged(u, w, row) && SessionSchema(row) && AtStart(o) && o.phase == AskingSession
    ensures var o' := Act(u, w, o, ReadSession); AtStart(o') && o'.phase == AskingEvidence
  {
    SessionFits(u, w, row, o);
    assert Act(u, w, o, ReadSession) == DoReadSession(u, w, o);
  }

  /** The steps of an observer up to its request for the evidence. */
  function Approach(late: bool): seq<Action> {
    [Start] + [List] + [ReadStatus(late)] + [Relist] + [TakeNext] + [ReadSession]
  }

  lemma Approached(u: Setup, w: World, row: Session, o: Observer, late: bool, zero: string)
    requires Staged(u, w, row) && Keeps(u) && SessionSchema(row) && zero == ZERO_HASH && o == Fresh(Task(0, zero))
    ensures var o' := ActAll(u, w, o, Approach(late)); AtStart(o') && o'.phase == AskingEvidence
  {
    var none: seq<Action> := [];
    var a1, a2, a3 := none + [Start], none + [Start] + [List], none + [Start] + [List] + [ReadStatus(late)];
    var a4 := a3 + [Relist];
    ActMore(u, w, o, none, Start);
    Starts(u, w, row, o, zero);
    ActMore(u, w, o, a1, List);
    FindsNothing(u, w, row, ActAll(u, w, o, a1));
    ActMore(u, w, o, a2, ReadStatus(late));
    SeesClosed(u, w, row, ActAll(u, w, o, a2), late);
    ActMore(u, w, o, a3, Relist);
    GetsKeepalive(u, w, row, ActAll(u, w, o, a3));
    ActMore(u, w, o, a4, TakeNext);
    EndsReplay(u, w, ActAll(u, w, o, a4));
    ActMore(u, w, o, a4 + [TakeNext], ReadSession);
    ReadsSession(u, w, row, ActAll(u, w, o, a4 + [TakeNext]));
    assert none + [Start] == [Start];
  }

  lemma ChecksEmpty(u: Setup, w: World, row: Session)
    requires Staged(u, w, row)
    ensures Checked(u.p, w.db, w.artifacts, u.sessionId) == Ok([])
  {
    NothingListed(u, w, row, 0);
  }

  lemma CheckedIsSaved(p: Scheme, w: World, sessionId: string, n: nat, at: string, es: seq<LiveEvent>)
    requires Checked(p, w.db, w.artifacts, sessionId) == Ok(es)
    ensures Finalize(p, w, sessionId, n, at) == Saved(w, BundleFor(p, sessionId, n, at, es))
  {
  }

  lemma FinalizeStepIs(p: Scheme, w: World, sessionId: string, n: nat, at: string)
    ensures Apply(p, w, FinalizeStep(sessionId, n, at)) == Finalize(p, w, sessionId, n, at).0
  {
  }

  lemma SavesNew(w: World, b: Bundle)
    requires (b.sessionId, b.revision) !in w.db.bundles
    ensures Saved(w, b).0 == w.(db := w.db.(bundles := w.db.bundles[(b.sessionId, b.revision) := b]))
  {
  }

  /** Finalizing it stores the bundle of no events. */
  lemma FinalizesEmpty(u: Setup, w: World, row: Session, n: nat, at: string, none: seq<LiveEvent>, b: Bundle)
    requires Staged(u, w, row) && (u.sessionId, n) !in w.db.bundles
    requires none == [] && b == BundleFor(u.p, u.sessionId, n, at, none)
    ensures Finalize(u.p, w, u.sessionId, n, at).0 == w.(db := w.db.(bundles := w.db.bundles[(u.sessionId, n) := b]))
  {
    ChecksEmpty(u, w, row);
    CheckedIsSaved(u.p, w, u.sessionId, n, at, none);
    BundleKey(u.p, u.sessionId, n, at, none);
    SavesNew(w, b);
  }

  lemma NewestRevision(db: Db, sessionId: string, n: nat)
    requires (sessionId, n) in db.bundles && forall m: nat :: (sessionId, m) in db.bundles ==> m <= n
    ensures GetBundle(db, sessionId) == Ok(db.bundles[(sessionId, n)])
  {
  }

  /** A bundle of no events that observers accept. */
  ghost predicate EmptyBundle(u: Setup, b: Bundle) {
    BundleSchema(b) && b.bundleHash == BundleHash(u.p, b) && b.head == ZERO_HASH && b.eventCount == 0
  }

  function ReportOf(u: Setup, zero: string, b: Bundle): Observed {
    Observed(u.sessionId, 0, 0, zero, b.bundleHash)
  }

  lemma Reports(u: Setup, w: World, o: Observer, b: Bundle, zero: string)
    requires AtStart(o) && o.phase == AskingEvidence && GetBundle(w.db, u.sessionId) == Ok(b) && EmptyBundle(u, b)
    requires zero == ZERO_HASH
    ensures DoReadEvidence(u, w, o).phase == Done(ReportOf(u, zero, b))
  {
    FittingEvidence(u, w, o, b);
  }

  // ---------------------------------------------------------------- the run

  /** A session is created, closed and finalized; observer 0 observes it; observer 1 comes as far as asking for
      the evidence; a second revision is finalized; observer 1 fetches. */
  function Prologue(sessionId: string, sourceType: string, at: string, m: nat): seq<Step> {
    [Gateway(CreateStep(sessionId, sourceType, at))] + [Gateway(CloseStep(sessionId, at))]
    + [Gateway(FinalizeStep(sessionId, m, at))]
  }

  function SplitRun(sessionId: string, sourceType: string, at: string, late: bool, m: nat, n: nat): seq<Step> {
    Prologue(sessionId, sourceType, at, m) + Turns(0, Approach(late)) + [Observe(0, ReadEvidence)]
    + Turns(1, Approach(late)) + [Gateway(FinalizeStep(sessionId, n, at))] + [Observe(1, ReadEvidence)]
  }

  /** The row of a session that was closed without events, given the head of an empty chain. */
  function ClosedRow(sessionId: string, sourceType: string, at: string, zero: string): Session {
    Session(sessionId, sourceType, at, true, Some(at), 1, zero)
  }

  /** The store with that row and some bundles. */
  function StoreWith(row: Session, bundles: map<(string, nat), Bundle>): World {
    World(Db(map[row.sessionId := row], [], bundles), map[])
  }

  function Opening(u: Setup, sourceType: string, at: string): World {
    Apply(u.p, Apply(u.p, EMPTY_WORLD, CreateStep(u.sessionId, sourceType, at)), CloseStep(u.sessionId, at))
  }

  lemma CreatesFirst(sessionId: string, sourceType: string, at: string, zero: string)
    requires zero == ZERO_HASH
    ensures CreateSession(EMPTY_WORLD.db, BuildLiveSession(sessionId, sourceType, at)).0
         == Db(map[sessionId := Session(sessionId, sourceType, at, false, None, 1, zero)], [], map[])
  {
  }

  lemma ClosesFirst(sessionId: string, sourceType: string, at: string, zero: string)
    ensures CloseSession(Db(map[sessionId := Session(sessionId, sourceType, at, false, None, 1, zero)], [], map[]),
                         sessionId, at).0
         == Db(map[sessionId := ClosedRow(sessionId, sourceType, at, zero)], [], map[])
  {
  }

  lemma OpeningIs(u: Setup, sourceType: string, at: string, zero: string)
    requires zero == ZERO_HASH
    ensures Opening(u, sourceType, at) == StoreWith(ClosedRow(u.sessionId, sourceType, at, zero), map[])
  {
    CreatesFirst(u.sessionId, sourceType, at, zero);
    ClosesFirst(u.sessionId, sourceType, at, zero);
  }

  lemma PrologueRuns(u: Setup, tasks: seq<Task>, sourceType: string, at: string, m: nat, zero: string, w: World)
    requires zero == ZERO_HASH && w == StoreWith(ClosedRow(u.sessionId, sourceType, at, zero), map[])
    ensures Run(u, tasks, Prologue(u.sessionId, sourceType, at, m))
         == System(Finalize(u.p, w, u.sessionId, m, at).0, Initial(tasks).observers)
  {
    var none: seq<Step> := [];
    var create, close := Gateway(CreateStep(u.sessionId, sourceType, at)), Gateway(CloseStep(u.sessionId, at));
    RunContinues(u, tasks, none, create);
    RunContinues(u, tasks, none + [create], close);
    RunContinues(u, tasks, none + [create] + [close], Gateway(FinalizeStep(u.sessionId, m, at)));
    assert none + [create] == [create];
    OpeningIs(u, sourceType, at, zero);
    FinalizeStepIs(u.p, w, u.sessionId, m, at);
  }

  lemma EmptyStore(u: Setup, row: Session, bundles: map<(string, nat), Bundle>)
    requires row.sessionId == u.sessionId && row.closed && row.nextSequence == 1 && row.head == ZERO_HASH
    ensures Staged(u, StoreWith(row, bundles), row)
  {
  }

  lemma FinalizesStore(u: Setup, row: Session, bundles: map<(string, nat), Bundle>, n: nat, at: string,
                       none: seq<LiveEvent>, b: Bundle)
    requires row.sessionId == u.sessionId && row.closed && row.nextSequence == 1 && row.head == ZERO_HASH
    requires (u.sessionId, n) !in bundles && none == [] && b == BundleFor(u.p, u.sessionId, n, at, none)
    ensures Finalize(u.p, StoreWith(row, bundles), u.sessionId, n, at).0
            == StoreWith(row, bundles[(u.sessionId, n) := b])
  {
    EmptyStore(u, row, bundles);
    FinalizesEmpty(u, StoreWith(row, bundles), row, n, at, none, b);
  }

  /** An observer comes up to the evidence and fetches it. */
  lemma TurnAndFetch(u: Setup, tasks: seq<Task>, steps: seq<Step>, i: nat, actions: seq<Action>, o: Observer)
    requires i < |Run(u, tasks, steps).observers|
    requires var y := Run(u, tasks, steps);
             o == ActAll(u, y.w, y.observers[i], actions) && o.phase == AskingEvidence
    ensures var y := Run(u, tasks, steps);
            Run(u, tasks, steps + Turns(i, actions) + [Observe(i, ReadEvidence)])
            == System(y.w, y.observers[i := DoReadEvidence(u, y.w, o)])
  {
    var y := Run(u, tasks, steps);
    RunTurns(u, tasks, steps, i, actions);
    RunContinues(u, tasks, steps + Turns(i, actions), Observe(i, ReadEvidence));
    Fetches(u, y.(observers := y.observers[i := o]), i);
  }

  /** An observer comes up to the evidence, a revision is finalized, and then it fetches. */
  lemma TurnAndLateFetch(u: Setup, tasks: seq<Task>, steps: seq<Step>, i: nat, actions: seq<Action>, o: Observer,
                         n: nat, at: string)
    requires i < |Run(u, tasks, steps).observers|
    requires var y := Run(u, tasks, steps);
             o == ActAll(u, y.w, y.observers[i], actions) && o.phase == AskingEvidence
    ensures var y := Run(u, tasks, steps);
            var w' := Finalize(u.p, y.w, u.sessionId, n, at).0;
            Run(u, tasks,
                steps + Turns(i, actions) + [Gateway(FinalizeStep(u.sessionId, n, at))] + [Observe(i, ReadEvidence)])
            == System(w', y.observers[i := DoReadEvidence(u, w', o)])
  {
    var y := Run(u, tasks, steps);
    RunTurns(u, tasks, steps, i, actions);
    LateRun(u, tasks, steps + Turns(i, actions), i, n, at);
    FinalizeStepIs(u.p, y.w, u.sessionId, n, at);
  }

  /** The run is its pieces put together: two turns on one world, and a fetch from that one and the next. */
  lemma SplitRunPieces(u: Setup, tasks: seq<Task>, sourceType: string, at: string, late: bool, m: nat, n: nat,
                       y: System)
    requires |tasks| == 2 && y == Run(u, tasks, Prologue(u.sessionId, sourceType, at, m)) && |y.observers| == 2
    requires ActAll(u, y.w, y.observers[0], Approach(late)).phase == AskingEvidence
    requires ActAll(u, y.w, y.observers[1], Approach(late)).phase == AskingEvidence
    ensures var w' := Finalize(u.p, y.w, u.sessionId, n, at).0;
            Run(u, tasks, SplitRun(u.sessionId, sourceType, at, late, m, n))
            == System(w', [DoReadEvidence(u, y.w, ActAll(u, y.w, y.observers[0], Approach(late))),
                           DoReadEvidence(u, w', ActAll(u, y.w, y.observers[1], Approach(late)))])
  {
    var prologue, actions := Prologue(u.sessionId, sourceType, at, m), Approach(late);
    var o, o' := ActAll(u, y.w, y.observers[0], actions), ActAll(u, y.w, y.observers[1], actions);
    TurnAndFetch(u, tasks, prologue, 0, actions, o);
    TurnAndLateFetch(u, tasks, prologue + Turns(0, actions) + [Observe(0, ReadEvidence)], 1, actions, o', n, at);
  }

  /** What an observer does on one world and, at last, on another. */
  lemma OneReports(u: Setup, w: World, w': World, row: Session, o: Observer, late: bool, b: Bundle, zero: string)
    requires Staged(u, w, row) && Keeps(u) && SessionSchema(row) && zero == ZERO_HASH && o == Fresh(Task(0, zero))
    requires GetBundle(w'.db, u.sessionId) == Ok(b) && EmptyBundle(u, b)
    ensures var o' := ActAll(u, w, o, Approach(late));
            o'.phase == AskingEvidence && DoReadEvidence(u, w', o').phase == Done(ReportOf(u, zero, b))
  {
    Approached(u, w, row, o, late, zero);
    Reports(u, w', ActAll(u, w, o, Approach(late)), b, zero);
  }

  lemma BundlesServed(u: Setup, row: Session, m: nat, n: nat, b: Bundle, b': Bundle)
    requires m < n
    ensures GetBundle(StoreWith(row, map[(u.sessionId, m) := b]).db, u.sessionId) == Ok(b)
    ensures GetBundle(StoreWith(row, map[(u.sessionId, m) := b][(u.sessionId, n) := b']).db, u.sessionId) == Ok(b')
  {
    NewestRevision(StoreWith(row, map[(u.sessionId, m) := b]).db, u.sessionId, m);
    NewestRevision(StoreWith(row, map[(u.sessionId, m) := b][(u.sessionId, n) := b']).db, u.sessionId, n);
  }

  /** The setting: a stream that carries the keepalive, a row and two bundles that match their schemas. */
  ghost predicate Setting(u: Setup, row: Session, m: nat, n: nat, b: Bundle, b': Bundle) {
    && Keeps(u) && SessionSchema(row) && m < n && EmptyBundle(u, b) && EmptyBundle(u, b')
  }

  lemma BothReport(u: Setup, w: World, w': World, row: Session, o: Observer, late: bool, m: nat, n: nat,
                   b: Bundle, b': Bundle, zero: string)
    requires Setting(u, row, m, n, b, b') && Staged(u, w, row) && zero == ZERO_HASH && o == Fresh(Task(0, zero))
    requires w == StoreWith(row, map[(u.sessionId, m) := b])
    requires w' == StoreWith(row, map[(u.sessionId, m) := b][(u.sessionId, n) := b'])
    ensures var o' := ActAll(u, w, o, Approach(late));
            && o'.phase == AskingEvidence
            && DoReadEvidence(u, w, o').phase == Done(ReportOf(u, zero, b))
            && DoReadEvidence(u, w', o').phase == Done(ReportOf(u, zero, b'))
  {
    BundlesServed(u, row, m, n, b, b');
    OneReports(u, w, w, row, o, late, b, zero);
    OneReports(u, w, w', row, o, late, b', zero);
  }

  lemma TwoTasks(tasks: seq<Task>, t: Task)
    requires tasks == [t, t]
    ensures Initial(tasks).observers == [Fresh(t), Fresh(t)]
  {
  }

  lemma KeysDiffer(sessionId: string, m: nat, n: nat, b: Bundle)
    requires m != n
    ensures (sessionId, n) !in map[(sessionId, m) := b]
  {
  }

  /** The run as two worlds and what the observers do in them. */
  lemma SplitRunWorlds(u: Setup, tasks: seq<Task>, sourceType: string, at: string, late: bool, m: nat, n: nat,
                       t: Task, zero: string, w0: World, w: World, w': World, o': Observer)
    requires tasks == [t, t] && zero == ZERO_HASH
    requires w0 == StoreWith(ClosedRow(u.sessionId, sourceType, at, zero), map[])
    requires w == Finalize(u.p, w0, u.sessionId, m, at).0
    requires w' == Finalize(u.p, w, u.sessionId, n, at).0
    requires o' == ActAll(u, w, Fresh(t), Approach(late)) && o'.phase == AskingEvidence
    ensures Run(u, tasks, SplitRun(u.sessionId, sourceType, at, late, m, n))
         == System(w', [DoReadEvidence(u, w, o'), DoReadEvidence(u, w', o')])
  {
    TwoTasks(tasks, t);
    PrologueRuns(u, tasks, sourceType, at, m, zero, w0);
    SplitRunPieces(u, tasks, sourceType, at, late, m, n, Run(u, tasks, Prologue(u.sessionId, sourceType, at, m)));
  }

  /** What the bundle of an empty session says of itself. */
  ghost predicate Describes(u: Setup, b: Bundle, n: nat, at: string, zero: string) {
    && b.sessionId == u.sessionId && b.revision == n && b.finalizedAt == at
    && b.head == zero && b.eventCount == 0 && b.bundleHash == BundleHash(u.p, b)
  }

  /** The bundles the run stores. */
  lemma StoredBundles(u: Setup, row: Session, at: string, m: nat, n: nat, zero: string) returns (b: Bundle, b': Bundle)
    requires row.sessionId == u.sessionId && row.closed && row.nextSequence == 1 && row.head == zero
             && zero == ZERO_HASH
    requires m != n
    ensures Describes(u, b, m, at, zero) && Describes(u, b', n, at, zero)
    ensures Finalize(u.p, StoreWith(row, map[]), u.sessionId, m, at).0 == StoreWith(row, map[(u.sessionId, m) := b])
    ensures Finalize(u.p, StoreWith(row, map[(u.sessionId, m) := b]), u.sessionId, n, at).0
         == StoreWith(row, map[(u.sessionId, m) := b][(u.sessionId, n) := b'])
  {
    var none: seq<LiveEvent> := [];
    b := StoredBundle(u, row, map[], at, m, zero);
    KeysDiffer(u.sessionId, m, n, b);
    b' := StoredBundle(u, row, map[(u.sessionId, m) := b], at, n, zero);
  }

  lemma StoredBundle(u: Setup, row: Session, bundles: map<(string, nat), Bundle>, at: string, n: nat, zero: string)
    returns (b: Bundle)
    requires row.sessionId == u.sessionId && row.closed && row.nextSequence == 1 && row.head == zero
             && zero == ZERO_HASH
    requires (u.sessionId, n) !in bundles
    ensures Describes(u, b, n, at, zero)
    ensures Finalize(u.p, StoreWith(row, bundles), u.sessionId, n, at).0
            == StoreWith(row, bundles[(u.sessionId, n) := b])
  {
    var none: seq<LiveEvent> := [];
    b := BundleFor(u.p, u.sessionId, n, at, none);
    BundleFits(u.p, u.sessionId, n, at, none);
    FinalizesStore(u, row, bundles, n, at, none, b);
  }

  /** The run in full: both observers return, and report the two bundles. */
  lemma SplitRunReports(u: Setup, tasks: seq<Task>, sourceType: string, at: string, late: bool, m: nat, n: nat,
                        zero: string, row: Session, b: Bundle, b': Bundle, w: World, w': World)
    requires zero == ZERO_HASH && tasks == [Task(0, zero), Task(0, zero)]
    requires row == ClosedRow(u.sessionId, sourceType, at, zero) && Setting(u, row, m, n, b, b')
    requires w == StoreWith(row, map[(u.sessionId, m) := b])
    requires w' == StoreWith(row, map[(u.sessionId, m) := b][(u.sessionId, n) := b'])
    requires w == Finalize(u.p, StoreWith(row, map[]), u.sessionId, m, at).0
             && w' == Finalize(u.p, w, u.sessionId, n, at).0
    ensures var y := Run(u, tasks, SplitRun(u.sessionId, sourceType, at, late, m, n));
            && y.w == w' && |y.observers| == 2
            && y.observers[0].phase == Done(ReportOf(u, zero, b)) && y.observers[1].phase == Done(ReportOf(u, zero, b'))
  {
    var o := Fresh(Task(0, zero));
    EmptyStore(u, row, map[(u.sessionId, m) := b]);
    BothReport(u, w, w', row, o, late, m, n, b, b', zero);
    SplitRunWorlds(u, tasks, sourceType, at, late, m, n, Task(0, zero), zero, StoreWith(row, map[]), w, w',
                   ActAll(u, w, o, Approach(late)));
  }

  // ---------------------------------------------------------------- with the real stream and hashes

  lemma LiveKeeps(h: Hashes, sessionId: string, none: seq<LiveEvent>)
    requires none == []
    ensures Keeps(LiveSetup(h, sessionId))
  {
    LiveSetupLawful(h, sessionId);
    var text := SendStream(none);
    assert |text| == 13;
    Utf8.EncodeLength(text);
  }

  lemma LiveEmptyBundle(h: Hashes, u: Setup, b: Bundle, n: nat, at: string, zero: string)
    requires u.p == LiveScheme(h) && Describes(u, b, n, at, zero) && zero == ZERO_HASH
    requires |h.keccak(BundleBytes(b))| == 32 && u.sessionId != "" && NumeralText(at)
    ensures EmptyBundle(u, b)
  {
    HashOfBundle(h, b);
    KeccakHexIsKeccakText(h, BundleBytes(b));
    ZeroHashIsKeccakText(zero);
  }

  lemma SplitSetting(h: Hashes, u: Setup, row: Session, m: nat, n: nat, b: Bundle, b': Bundle, at: string, zero: string)
    requires u.p == LiveScheme(h) && Keeps(u) && (forall d :: |h.keccak(d)| == 32) && m < n && zero == ZERO_HASH
    requires Describes(u, b, m, at, zero) && Describes(u, b', n, at, zero) && NumeralText(at)
    requires SessionFields(row) && row.head == zero && row.sessionId == u.sessionId
    ensures Setting(u, row, m, n, b, b')
  {
    LiveEmptyBundle(h, u, b, m, at, zero);
    LiveEmptyBundle(h, u, b', n, at, zero);
    ZeroHashIsKeccakText(zero);
  }

  ghost predicate Holds(w: World, sessionId: string, n: nat, b: Bundle) {
    (sessionId, n) in w.db.bundles && w.db.bundles[(sessionId, n)] == b
  }

  lemma BothHeld(row: Session, sessionId: string, m: nat, n: nat, b: Bundle, b': Bundle)
    requires m < n
    ensures var w := StoreWith(row, map[(sessionId, m) := b][(sessionId, n) := b']);
            Holds(w, sessionId, m, b) && Holds(w, sessionId, n, b')
  {
  }

  /** The store and the reports at the end of the run. */
  lemma SplitRunEnd(h: Hashes, u: Setup, sourceType: string, at: string, late: bool, m: nat, n: nat,
                    zero: string, tasks: seq<Task>) returns (b: Bundle, b': Bundle)
    requires u.p == LiveScheme(h) && Keeps(u) && (forall d :: |h.keccak(d)| == 32) && m < n
    requires zero == ZERO_HASH && tasks == [Task(0, zero), Task(0, zero)]
    requires u.sessionId != "" && sourceType != "" && NumeralText(at)
    ensures var y := Run(u, tasks, SplitRun(u.sessionId, sourceType, at, late, m, n));
            && Holds(y.w, u.sessionId, m, b) && Holds(y.w, u.sessionId, n, b') && |y.observers| == 2
            && y.observers[0].phase == Done(ReportOf(u, zero, b)) && y.observers[1].phase == Done(ReportOf(u, zero, b'))
  {
    var row := ClosedRow(u.sessionId, sourceType, at, zero);
    b, b' := StoredBundles(u, row, at, m, n, zero);
    SplitSetting(h, u, row, m, n, b, b', at, zero);
    var w := StoreWith(row, map[(u.sessionId, m) := b]);
    var w' := StoreWith(row, map[(u.sessionId, m) := b][(u.sessionId, n) := b']);
    SplitRunReports(u, tasks, sourceType, at, late, m, n, zero, row, b, b', w, w');
    BothHeld(row, u.sessionId, m, n, b, b');
  }

  /** Observers of one run need not agree: for every 32-byte hash, session and pair of revisions there is the run
      in which the first observer fetches between the two and the second one after. Both return, and their results
      differ, unless the two bundles are a collision of that hash. */
  lemma TwoRevisionsSplit(h: Hashes, u: Setup, sourceType: string, at: string, late: bool, m: nat, n: nat,
                          zero: string, tasks: seq<Task>)
    requires u.p == LiveScheme(h) && Keeps(u) && LowerCase(u.p) && (forall d :: |h.keccak(d)| == 32) && m < n
    requires zero == ZERO_HASH && tasks == [Task(0, zero), Task(0, zero)]
    requires u.sessionId != "" && sourceType != "" && NumeralText(at)
    ensures var y := Run(u, tasks, SplitRun(u.sessionId, sourceType, at, late, m, n));
            && |y.observers| == 2 && y.observers[0].phase.Done? && y.observers[1].phase.Done?
            && (y.observers[0].phase.result != y.observers[1].phase.result || Collides(h, y.w, u.sessionId, m, n))
  {
    var b, b' := SplitRunEnd(h, u, sourceType, at, late, m, n, zero, tasks);
    var y := Run(u, tasks, SplitRun(u.sessionId, sourceType, at, late, m, n));
    if b.bundleHash == b'.bundleHash {
      RunsKeepInvariant(u, tasks, SplitRun(u.sessionId, sourceType, at, late, m, n));
      RevisionsCollide(h, y.w, u.sessionId, m, n);
    }
  }

  /** So with the real stream. */
  lemma LiveObserversSplit(h: Hashes, sessionId: string, sourceType: string, at: string, late: bool, m: nat, n: nat,
                           zero: string, tasks: seq<Task>)
    requires (forall d :: |h.keccak(d)| == 32) && m < n
    requires zero == ZERO_HASH && tasks == [Task(0, zero), Task(0, zero)]
    requires sessionId != "" && sourceType != "" && NumeralText(at)
    ensures var y := Run(LiveSetup(h, sessionId), tasks, SplitRun(sessionId, sourceType, at, late, m, n));
            && |y.observers| == 2 && y.observers[0].phase.Done? && y.observers[1].phase.Done?
            && (y.observers[0].phase.result != y.observers[1].phase.result || Collides(h, y.w, sessionId, m, n))
  {
    LiveSetupLawful(h, sessionId);
    LiveKeeps(h, sessionId, []);
    TwoRevisionsSplit(h, LiveSetup(h, sessionId), sourceType, at, late, m, n, zero, tasks);
  }
}
