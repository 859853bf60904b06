/** Gateway and observers together: every store call and every response is one step, and the steps
    of any number of observers interleave freely with those of the gateway. */
module ObservationProtocol {
  import opened Wrappers
  import opened Text
  import opened LiveProtocol
  import opened LiveSchema
  import opened LiveStore
  import opened LiveEvidence
  import opened LiveGateway
  import opened Observation
  import Utf8

  /** The session under observation and the stream in between: the text a list of events is sent as, its
      size in bytes, what an observer reads from a text, and which events survive the way. */
  datatype Setup = Setup(p: Scheme, sessionId: string, body: seq<LiveEvent> -> string, size: string -> nat,
                         read: string -> Option<seq<LiveEvent>>, carried: LiveEvent -> bool)
  {
    /** What is sent is read back, or refused as a whole when it holds an event that cannot be carried. */
    ghost predicate Lawful() {
      forall es :: read(body(es)) == if AllCarried(es) then Some(es) else None
    }

    predicate AllCarried(es: seq<LiveEvent>) {
      forall e | e in es :: carried(e)
    }
  }

  /** What the signed task tells an observer. */
  datatype Task = Task(start: nat, initialHead: string)

  datatype Observed = Observed(sessionId: string, lastSequence: nat, eventCount: nat, head: string, bundleHash: string)

  datatype Phase =
    | Down                                                    // not started, or crashed
    | Listing                                                 // the stream handler is about to list events
    | EmptyListed                                             // it found none and is about to read the session
    | ClosedSeen                                              // it saw the session closed and is about to list again
    | Replaying(batch: seq<LiveEvent>, closedKeepalive: bool) // the response has arrived
    | AskingSession
    | AskingEvidence
    | Done(result: Observed)
    | Failed(error: ObservationError)

  /** An agent and its row for this session. The row outlives the task it was begun under: `from` is the start of
      that task, and the next task of the same agent resumes the row. */
  datatype Observer = Observer(task: Task, from: nat, phase: Phase, s: Progress, saved: Option<CursorRow>)

  datatype Action =
    | Assign(task: Task) // the relay hands the agent its next task for this session
    | Start | List | ReadStatus(deadlinePassed: bool) | Relist
    | TakeNext | ReadSession | ReadEvidence | GiveUp | Crash

  predicate Running(o: Observer) {
    !o.phase.Down? && !o.phase.Done? && !o.phase.Failed?
  }

  /** The task names a position of the chain as it is committed now. */
  predicate TaskCommitted(u: Setup, w: World, t: Task) {
    var es := EventsOf(w.db.events, u.sessionId);
    u.sessionId in w.db.sessions && t.start <= |es| && Lower(t.initialHead) == Lower(HeadOf(es[..t.start]))
  }

  function Deliver(u: Setup, o: Observer, batch: seq<LiveEvent>, closedSeen: bool): (o': Observer)
    ensures o'.task == o.task && o'.from == o.from
  {
    var text := u.body(batch);
    if u.size(text) > MAX_SSE_RESPONSE_BYTES then o.(phase := Failed(LiveStreamTooLarge))
    else match u.read(text)
         case None => o.(phase := Failed(StreamRefused))
         case Some(events) => o.(phase := Replaying(events, closedSeen && batch == []))
  }

  function DoStart(u: Setup, w: World, o: Observer): (o': Observer)
    ensures o'.task == o.task && (o'.from == o.from || o'.from == o.task.start)
  {
    if !TaskCommitted(u, w, o.task) then o
    else
      var r := Resume(o.saved, o.task.start, o.task.initialHead);
      if r.Err? then o.(phase := Failed(r.error))
      else o.(phase := Listing, s := r.value, from := if o.saved.None? then o.task.start else o.from)
  }

  function DoList(u: Setup, w: World, o: Observer): (o': Observer)
    ensures o'.task == o.task && o'.from == o.from
  {
    var batch := ListEvents(w.db, u.sessionId, o.s.cursor);
    if batch == [] then o.(phase := EmptyListed) else Deliver(u, o, batch, false)
  }

  function DoReadStatus(u: Setup, w: World, o: Observer, deadlinePassed: bool): (o': Observer)
    ensures o'.task == o.task && o'.from == o.from
  {
    var session := GetSession(w.db, u.sessionId);
    if session.Err? then o.(phase := Failed(SessionUnavailable))
    else if session.value.closed then o.(phase := ClosedSeen)
    else if deadlinePassed then Deliver(u, o, [], false)
    else o.(phase := Listing)
  }

  function DoTakeNext(u: Setup, w: World, o: Observer): (o': Observer)
    requires o.phase.Replaying?
    ensures o'.task == o.task && o'.from == o.from
  {
    if o.phase.batch == [] then o.(phase := AskingSession)
    else
      var e := o.phase.batch[0];
      var artifact := GetArtifact(u.p, w.artifacts, e.artifactHash);
      var reply := if artifact.Ok? then Some(artifact.value) else None;
      var r := TakeEvent(u.p, u.sessionId, o.saved, o.s, e, reply);
      if r.Err? then o.(phase := Failed(r.error))
      else o.(phase := Replaying(o.phase.batch[1..], false), s := r.value, saved := Some(RowOf(r.value)))
  }

  function DoReadSession(u: Setup, w: World, o: Observer): (o': Observer)
    ensures o'.task == o.task && o'.from == o.from
  {
    var session := GetSession(w.db, u.sessionId);
    if session.Err? then o.(phase := Failed(SessionUnavailable))
    else if !SessionSchema(session.value) then o.(phase := Failed(SchemaRefused))
    else if !session.value.closed || o.s.cursor < session.value.nextSequence - 1 then o.(phase := Listing)
    else if o.s.cursor != session.value.nextSequence - 1 then o.(phase := Failed(ObservationError.SequenceGap))
    else if Lower(session.value.head) != Lower(o.s.head) then o.(phase := Failed(ObservationError.HashChainBroken))
    else o.(phase := AskingEvidence)
  }

  ghost function DoReadEvidence(u: Setup, w: World, o: Observer): (o': Observer)
    ensures o'.task == o.task && o'.from == o.from
  {
    var b := GetBundle(w.db, u.sessionId);
    if b.Err? then o.(phase := Listing)
    else if !BundleSchema(b.value) then o.(phase := Failed(SchemaRefused))
    else if b.value.bundleHash != BundleHash(u.p, b.value) then o.(phase := Failed(BundleHashMismatch))
    else if Lower(b.value.head) != Lower(o.s.head) || b.value.eventCount != o.s.count then
      o.(phase := Failed(ObservationBundleMismatch))
    else o.(phase := Done(Observed(u.sessionId, o.s.cursor, o.s.count, o.s.head, b.value.bundleHash)))
  }

  /** One step of one observer; an action that is not enabled changes nothing. */
  ghost function Act(u: Setup, w: World, o: Observer, a: Action): (o': Observer)
    ensures (o'.from == o.from || o'.from == o.task.start) && (o'.task == o.task || a == Assign(o'.task))
  {
    match (o.phase, a)
    case (_, Assign(task)) => if Running(o) then o else o.(task := task, phase := Down)
    case (Down, Start) => DoStart(u, w, o)
    case (Listing, List) => DoList(u, w, o)
    case (EmptyListed, ReadStatus(late)) => DoReadStatus(u, w, o, late)
    case (ClosedSeen, Relist) => Deliver(u, o, ListEvents(w.db, u.sessionId, o.s.cursor), true)
    case (Replaying(_, _), TakeNext) => DoTakeNext(u, w, o)
    case (AskingSession, ReadSession) => DoReadSession(u, w, o)
    case (AskingEvidence, ReadEvidence) => DoReadEvidence(u, w, o)
    case (Listing, GiveUp) => o.(phase := Failed(ObservationTimeout))
    case (Done(_), Crash) => o
    case (_, Crash) => o.(phase := Down)
    case _ => o
  }

  // ---------------------------------------------------------------- systems and runs

  datatype System = System(w: World, observers: seq<Observer>)

  datatype Step = Gateway(step: GatewayStep) | Observe(i: nat, a: Action)

  ghost function Next(u: Setup, y: System, step: Step): System {
    match step
    case Gateway(g) => y.(w := Apply(u.p, y.w, g))
    case Observe(i, a) =>
      if i < |y.observers| then y.(observers := y.observers[i := Act(u, y.w, y.observers[i], a)]) else y
  }

  function Fresh(t: Task): Observer {
    Observer(t, t.start, Down, Progress(t.start, t.initialHead, t.start, 0, 0, 0), None)
  }

  function Initial(tasks: seq<Task>): System {
    System(EMPTY_WORLD, seq(|tasks|, i requires 0 <= i < |tasks| => Fresh(tasks[i])))
  }

  ghost function Run(u: Setup, tasks: seq<Task>, steps: seq<Step>): System {
    if steps == [] then Initial(tasks)
    else Next(u, Run(u, tasks, steps[..|steps| - 1]), steps[|steps| - 1])
  }

  // ---------------------------------------------------------------- the invariant

  function Events(u: Setup, w: World): seq<LiveEvent> {
    EventsOf(w.db.events, u.sessionId)
  }

  ghost predicate Closed(u: Setup, w: World) {
    u.sessionId in w.db.sessions && w.db.sessions[u.sessionId].closed
  }

  /** A committed prefix of the chain. */
  ghost predicate AtPrefix(es: seq<LiveEvent>, cursor: nat, head: string, count: nat) {
    cursor <= |es| && head == HeadOf(es[..cursor]) && count == cursor
  }

  /** The events from `a` to `b` survive the stream and match their schema. */
  ghost predicate Readable(u: Setup, es: seq<LiveEvent>, a: nat, b: nat) {
    forall k | a <= k < b && k < |es| :: u.carried(es[k]) && EventSchema(es[k])
  }

  ghost predicate SavedOk(u: Setup, o: Observer, es: seq<LiveEvent>) {
    o.saved.Some? ==>
      && AtPrefix(es, o.saved.value.sequence, o.saved.value.head, o.saved.value.count)
      && o.from <= o.saved.value.sequence && Readable(u, es, o.from, o.saved.value.sequence)
  }

  ghost predicate RunningOk(u: Setup, o: Observer, es: seq<LiveEvent>) {
    && AtPrefix(es, o.s.cursor, o.s.head, o.s.count) && o.task.start <= o.s.cursor && o.from <= o.s.cursor
    && Readable(u, es, o.from, o.s.cursor)
    && (o.saved.Some? ==> o.saved.value.sequence <= o.s.cursor)
  }

  // ---------------------------------------------------------------- why an observer may stop

  /** Something the gateway stored without looking at its schema does not match it. */
  ghost predicate SchemaAtFault(u: Setup, w: World) {
    || (exists e | e in Events(u, w) :: !EventSchema(e))
    || (u.sessionId in w.db.sessions && !SessionFields(w.db.sessions[u.sessionId]))
    || (exists n :: (u.sessionId, n) in w.db.bundles && !BundleSchema(w.db.bundles[(u.sessionId, n)]))
  }

  /** The agent has a row for the session, and it lies before the start of the task at hand. */
  predicate RowBeforeTask(o: Observer) {
    o.saved.Some? && o.saved.value.sequence < o.task.start
  }

  /** A limit, a committed record that the stream cannot carry or a schema does not allow, or a task that starts
      beyond the agent's row. */
  ghost predicate Explained(u: Setup, w: World, o: Observer, e: ObservationError) {
    || IsLimit(e)
    || (e.StreamRefused? && !u.AllCarried(Events(u, w)))
    || (e.SchemaRefused? && SchemaAtFault(u, w))
    || (e.CursorRollback? && RowBeforeTask(o))
  }

  ghost predicate IsResult(u: Setup, w: World, r: Observed) {
    var es := Events(u, w);
    && Closed(u, w) && r.sessionId == u.sessionId && r.lastSequence == r.eventCount == |es| && r.head == HeadOf(es)
    && exists n :: (u.sessionId, n) in w.db.bundles && w.db.bundles[(u.sessionId, n)].bundleHash == r.bundleHash
                   && BundleSchema(w.db.bundles[(u.sessionId, n)])
  }

  ghost predicate PhaseOk(u: Setup, w: World, o: Observer) {
    var es := Events(u, w);
    match o.phase
    case ClosedSeen => Closed(u, w)
    case Replaying(batch, closedKeepalive) =>
      && o.s.cursor + |batch| <= |es| && batch == es[o.s.cursor..o.s.cursor + |batch|]
      && (closedKeepalive ==> Closed(u, w) && o.s.cursor == |es|) && u.AllCarried(batch)
    case AskingEvidence => Closed(u, w) && o.s.cursor == |es| && SessionSchema(w.db.sessions[u.sessionId])
    case Done(r) =>
      IsResult(u, w, r) && Readable(u, es, o.from, |es|) && SessionSchema(w.db.sessions[u.sessionId])
    case Failed(e) => Explained(u, w, o, e)
    case _ => true
  }

  ghost predicate ObserverOk(u: Setup, w: World, o: Observer) {
    && SavedOk(u, o, Events(u, w))
    && (Running(o) ==> u.sessionId in w.db.sessions && RunningOk(u, o, Events(u, w)))
    && PhaseOk(u, w, o)
  }

  ghost predicate SystemOk(u: Setup, y: System) {
    Inv(u.p, y.w) && forall i | 0 <= i < |y.observers| :: ObserverOk(u, y.w, y.observers[i])
  }

  // ---------------------------------------------------------------- gateway steps do not disturb observers

  lemma PrefixStays(es: seq<LiveEvent>, es': seq<LiveEvent>, cursor: nat, head: string, count: nat)
    requires es <= es' && AtPrefix(es, cursor, head, count)
    ensures AtPrefix(es', cursor, head, count)
  {
    assert es[..cursor] == es'[..cursor];
  }

  /** What stopped an observer is still there later. */
  lemma FaultStays(u: Setup, w: World, w': World, o: Observer, e: ObservationError)
    requires Inv(u.p, w) && Grows(w, w') && Events(u, w) <= Events(u, w') && Explained(u, w, o, e)
    ensures Explained(u, w', o, e)
  {
    var es, es' := Events(u, w), Events(u, w');
    assert forall x | x in es :: x in es';
    if e.SchemaRefused? && u.sessionId in w.db.sessions && !SessionFields(w.db.sessions[u.sessionId]) {
      assert SessionOk(u.p, w.db, u.sessionId);
      assert SameOrigin(w.db.sessions[u.sessionId], w'.db.sessions[u.sessionId]);
    }
    if e.SchemaRefused? {
      if n :| (u.sessionId, n) in w.db.bundles && !BundleSchema(w.db.bundles[(u.sessionId, n)]) {
        assert (u.sessionId, n) in w'.db.bundles;
      }
    }
  }

  lemma ReadableStays(u: Setup, es: seq<LiveEvent>, es': seq<LiveEvent>, a: nat, b: nat)
    requires es <= es' && b <= |es| && Readable(u, es, a, b)
    ensures Readable(u, es', a, b)
  {
    assert forall k | 0 <= k < |es| :: es'[k] == es[k];
  }

  lemma ResultStays(u: Setup, w: World, w': World, r: Observed)
    requires Grows(w, w') && IsResult(u, w, r) && Events(u, w') == Events(u, w)
    ensures IsResult(u, w', r)
  {
    var n :| (u.sessionId, n) in w.db.bundles && w.db.bundles[(u.sessionId, n)].bundleHash == r.bundleHash
             && BundleSchema(w.db.bundles[(u.sessionId, n)]);
    assert (u.sessionId, n) in w'.db.bundles;
  }

  lemma PhaseStays(u: Setup, w: World, w': World, o: Observer)
    requires Inv(u.p, w) && PhaseOk(u, w, o) && Grows(w, w') && Events(u, w) <= Events(u, w')
    requires Closed(u, w) ==> Events(u, w') == Events(u, w)
    ensures PhaseOk(u, w', o)
  {
    var es, es' := Events(u, w), Events(u, w');
    match o.phase {
      case Replaying(batch, _) =>
        assert es[o.s.cursor..o.s.cursor + |batch|] == es'[o.s.cursor..o.s.cursor + |batch|];
      case Done(r) => ResultStays(u, w, w', r);
      case Failed(e) => FaultStays(u, w, w', o, e);
      case _ =>
    }
  }

  lemma GrowthKeepsObserver(u: Setup, w: World, w': World, o: Observer)
    requires Inv(u.p, w) && ObserverOk(u, w, o) && Grows(w, w') && Events(u, w) <= Events(u, w')
    requires Closed(u, w) ==> Events(u, w') == Events(u, w)
    ensures ObserverOk(u, w', o)
  {
    var es, es' := Events(u, w), Events(u, w');
    if o.saved.Some? {
      PrefixStays(es, es', o.saved.value.sequence, o.saved.value.head, o.saved.value.count);
      ReadableStays(u, es, es', o.from, o.saved.value.sequence);
    }
    if Running(o) {
      PrefixStays(es, es', o.s.cursor, o.s.head, o.s.count);
      ReadableStays(u, es, es', o.from, o.s.cursor);
    }
    PhaseStays(u, w, w', o);
  }

  lemma GatewayStepKeeps(u: Setup, y: System, g: GatewayStep)
    requires SystemOk(u, y)
    ensures SystemOk(u, Next(u, y, Gateway(g)))
  {
    var w' := Apply(u.p, y.w, g);
    StepKeepsInv(u.p, y.w, g);
    StepGrows(u.p, y.w, g);
    EventsOfPrefix(y.w.db.events, w'.db.events, u.sessionId);
    if Closed(u, y.w) {
      ClosedEventsFrozen(u.p, y.w, g, u.sessionId);
    }
    forall i | 0 <= i < |y.observers|
      ensures ObserverOk(u, w', y.observers[i])
    {
      GrowthKeepsObserver(u, y.w, w', y.observers[i]);
    }
  }

  // ---------------------------------------------------------------- each observer action

  lemma HeadsAreLower(p: Scheme, sessionId: string, es: seq<LiveEvent>, n: nat)
    requires LowerCase(p) && Chain(p, sessionId, es) && n <= |es|
    ensures Lower(HeadOf(es[..n])) == HeadOf(es[..n])
  {
    ZeroHashIsLower();
    if n > 0 {
      assert LinkOk(p, sessionId, es, n - 1);
    }
  }

  lemma SessionFacts(u: Setup, w: World)
    requires Inv(u.p, w) && u.sessionId in w.db.sessions
    ensures Chain(u.p, u.sessionId, Events(u, w))
    ensures w.db.sessions[u.sessionId].nextSequence == |Events(u, w)| + 1
    ensures w.db.sessions[u.sessionId].head == HeadOf(Events(u, w))
    ensures forall c: nat | c <= |Events(u, w)| :: ListEvents(w.db, u.sessionId, c) == Events(u, w)[c..]
  {
    assert SessionOk(u.p, w.db, u.sessionId);
    forall c: nat | c <= |Events(u, w)|
      ensures ListEvents(w.db, u.sessionId, c) == Events(u, w)[c..]
    {
      ListedSuffix(u.p, w.db, u.sessionId, c);
    }
  }

  lemma StartKeeps(u: Setup, w: World, o: Observer)
    requires LowerCase(u.p) && Inv(u.p, w) && ObserverOk(u, w, o) && o.phase.Down?
    ensures ObserverOk(u, w, DoStart(u, w, o))
  {
    if TaskCommitted(u, w, o.task) {
      SessionFacts(u, w);
      HeadsAreLower(u.p, u.sessionId, Events(u, w), o.task.start);
    }
  }

  lemma DeliverOutcome(u: Setup, o: Observer, batch: seq<LiveEvent>, closedSeen: bool)
    requires u.Lawful()
    ensures var o' := Deliver(u, o, batch, closedSeen);
            && o' == o.(phase := o'.phase)
            && (o'.phase == Failed(LiveStreamTooLarge) || (o'.phase == Failed(StreamRefused) && !u.AllCarried(batch))
                || (o'.phase == Replaying(batch, closedSeen && batch == []) && u.AllCarried(batch)))
  {
    assert u.read(u.body(batch)) == if u.AllCarried(batch) then Some(batch) else None;
  }

  lemma DeliverKeeps(u: Setup, w: World, o: Observer, batch: seq<LiveEvent>, closedSeen: bool)
    requires u.Lawful() && Inv(u.p, w) && ObserverOk(u, w, o) && Running(o)
    requires batch == [] || batch == Events(u, w)[o.s.cursor..]
    requires closedSeen ==> Closed(u, w) && batch == Events(u, w)[o.s.cursor..]
    ensures ObserverOk(u, w, Deliver(u, o, batch, closedSeen))
  {
    DeliverOutcome(u, o, batch, closedSeen);
    var es, o' := Events(u, w), Deliver(u, o, batch, closedSeen);
    assert forall e | e in batch :: e in es;
    assert PhaseOk(u, w, o');
  }

  lemma ListKeeps(u: Setup, w: World, o: Observer)
    requires u.Lawful() && Inv(u.p, w) && ObserverOk(u, w, o) && (o.phase.Listing? || o.phase.ClosedSeen?)
    ensures o.phase.Listing? ==> ObserverOk(u, w, DoList(u, w, o))
    ensures o.phase.ClosedSeen? ==>
              ObserverOk(u, w, Deliver(u, o, ListEvents(w.db, u.sessionId, o.s.cursor), true))
  {
    SessionFacts(u, w);
    var batch := ListEvents(w.db, u.sessionId, o.s.cursor);
    DeliverKeeps(u, w, o, batch, o.phase.ClosedSeen?);
  }

  lemma ReadStatusKeeps(u: Setup, w: World, o: Observer, late: bool)
    requires u.Lawful() && Inv(u.p, w) && ObserverOk(u, w, o) && o.phase.EmptyListed?
    ensures ObserverOk(u, w, DoReadStatus(u, w, o, late))
  {
    DeliverKeeps(u, w, o, [], false);
  }

  /** The next event of a replayed batch passes every check that is not a limit. */
  lemma NextEventAccepted(u: Setup, w: World, o: Observer)
    requires Inv(u.p, w) && ObserverOk(u, w, o) && o.phase.Replaying? && o.phase.batch != []
    ensures var e := o.phase.batch[0];
            && e == Events(u, w)[o.s.cursor] && LinkOk(u.p, u.sessionId, Events(u, w), o.s.cursor)
            && GetArtifact(u.p, w.artifacts, e.artifactHash) == Ok(Utf8.Encode(e.content))
            && u.p.digest(Utf8.Encode(e.content)) == e.artifactHash
  {
    SessionFacts(u, w);
    var es, e := Events(u, w), o.phase.batch[0];
    assert e == es[o.s.cursor] && LinkOk(u.p, u.sessionId, es, o.s.cursor);
    EventsOfContents(w.db.events, u.sessionId);
    assert e in es && e in w.db.events;
    assert Stored(u.p, w.artifacts, e.artifactHash, e.content);
  }

  /** An event that continues what was checked, served with its artifact, meets no fault but a limit or its schema. */
  lemma ContinuingEvent(p: Scheme, sessionId: string, row: Option<CursorRow>, s: Progress, e: LiveEvent, reply: bytes)
    requires e.sessionId == sessionId && e.sequence == s.cursor + 1 && e.previousHash == s.head && VerifyLiveEvent(p, e)
    requires p.digest(reply) == e.artifactHash && reply == Utf8.Encode(e.content)
    requires row.Some? ==> row.value.sequence <= s.cursor
    ensures var r := TakeEvent(p, sessionId, row, s, e, Some(reply));
            && (r.Err? ==> IsLimit(r.error) || (r.error.SchemaRefused? && !EventSchema(e)))
            && (r.Ok? ==>
                  EventSchema(e) && r.value.cursor == r.value.count == s.cursor + 1 && r.value.head == e.eventHash)
  {
  }

  lemma TakeNextOutcome(u: Setup, w: World, o: Observer)
    requires Inv(u.p, w) && ObserverOk(u, w, o) && o.phase.Replaying? && o.phase.batch != []
    ensures var o', e := DoTakeNext(u, w, o), o.phase.batch[0];
            && o'.task == o.task && o'.from == o.from
            && (o'.phase.Failed? ==>
                  (IsLimit(o'.phase.error) || (o'.phase.error.SchemaRefused? && !EventSchema(e)))
                    && o'.saved == o.saved)
            && (!o'.phase.Failed? ==>
                  && EventSchema(e)
                  && o'.phase == Replaying(o.phase.batch[1..], false) && o'.saved == Some(RowOf(o'.s))
                  && o'.s.cursor == o'.s.count == o.s.cursor + 1 && o'.s.head == e.eventHash)
  {
    NextEventAccepted(u, w, o);
    var e := o.phase.batch[0];
    assert e.previousHash == HeadOf(Events(u, w)[..o.s.cursor]);
    ContinuingEvent(u.p, u.sessionId, o.saved, o.s, e, Utf8.Encode(e.content));
  }

  lemma BatchAdvances(es: seq<LiveEvent>, c: nat, batch: seq<LiveEvent>)
    requires batch != [] && c + |batch| <= |es| && batch == es[c..c + |batch|]
    ensures batch[1..] == es[c + 1..c + 1 + |batch[1..]|]
    ensures batch[0] == es[c] && HeadOf(es[..c + 1]) == es[c].eventHash
  {
  }

  lemma ReadableExtends(u: Setup, es: seq<LiveEvent>, a: nat, c: nat)
    requires c < |es| && Readable(u, es, a, c) && u.carried(es[c]) && EventSchema(es[c])
    ensures Readable(u, es, a, c + 1)
  {
  }

  lemma CarriedRest(u: Setup, batch: seq<LiveEvent>)
    requires batch != [] && u.AllCarried(batch)
    ensures u.carried(batch[0]) && u.AllCarried(batch[1..])
  {
    assert batch[0] in batch;
    assert forall e | e in batch[1..] :: e in batch;
  }

  /** An observer one event further on stands on the prefix that ends with that event, and so does its row. */
  lemma AdvancedPosition(u: Setup, es: seq<LiveEvent>, o: Observer, o': Observer)
    requires RunningOk(u, o, es) && o'.task == o.task && o'.from == o.from && o'.saved == Some(RowOf(o'.s))
    requires o.s.cursor < |es| && u.carried(es[o.s.cursor]) && EventSchema(es[o.s.cursor])
    requires o'.s.cursor == o'.s.count == o.s.cursor + 1 && o'.s.head == HeadOf(es[..o.s.cursor + 1])
    ensures RunningOk(u, o', es) && SavedOk(u, o', es)
  {
    ReadableExtends(u, es, o.from, o.s.cursor);
  }

  lemma AdvancedOk(u: Setup, w: World, o: Observer, o': Observer)
    requires ObserverOk(u, w, o) && o.phase.Replaying? && o.phase.batch != []
    requires o'.task == o.task && o'.from == o.from
    requires o'.phase == Replaying(o.phase.batch[1..], false) && o'.saved == Some(RowOf(o'.s))
    requires o'.s.cursor == o'.s.count == o.s.cursor + 1 && o'.s.head == o.phase.batch[0].eventHash
    requires EventSchema(o.phase.batch[0])
    ensures ObserverOk(u, w, o')
  {
    var es := Events(u, w);
    BatchAdvances(es, o.s.cursor, o.phase.batch);
    CarriedRest(u, o.phase.batch);
    AdvancedPosition(u, es, o, o');
    assert PhaseOk(u, w, o');
  }

  lemma TakeNextKeeps(u: Setup, w: World, o: Observer)
    requires Inv(u.p, w) && ObserverOk(u, w, o) && o.phase.Replaying?
    ensures ObserverOk(u, w, DoTakeNext(u, w, o))
  {
    if o.phase.batch != [] {
      TakeNextOutcome(u, w, o);
      if DoTakeNext(u, w, o).phase.Failed? {
        assert o.phase.batch[0] == Events(u, w)[o.s.cursor];
      } else {
        AdvancedOk(u, w, o, DoTakeNext(u, w, o));
      }
    }
  }

  lemma SchemaOfHead(s: Session, zero: string)
    requires SessionFields(s) && !SessionSchema(s) && zero == ZERO_HASH
    ensures !KeccakText(s.head) && s.head != zero
  {
    ZeroHashIsKeccakText(zero);
  }

  lemma HashOutsideSchema(es: seq<LiveEvent>)
    requires es != [] && !KeccakText(es[|es| - 1].eventHash)
    ensures exists e | e in es :: !EventSchema(e)
  {
    assert es[|es| - 1] in es;
  }

  /** A session that does not match its schema was given wrong fields, or its last event does not match. */
  lemma SessionFault(u: Setup, w: World)
    requires Inv(u.p, w) && u.sessionId in w.db.sessions && !SessionSchema(w.db.sessions[u.sessionId])
    ensures SchemaAtFault(u, w)
  {
    if SessionFields(w.db.sessions[u.sessionId]) {
      SessionFacts(u, w);
      SchemaOfHead(w.db.sessions[u.sessionId], ZERO_HASH);
      HashOutsideSchema(Events(u, w));
    }
  }

  lemma ReadSessionKeeps(u: Setup, w: World, o: Observer)
    requires Inv(u.p, w) && ObserverOk(u, w, o) && o.phase.AskingSession?
    ensures ObserverOk(u, w, DoReadSession(u, w, o))
  {
    SessionFacts(u, w);
    var es := Events(u, w);
    if !SessionSchema(w.db.sessions[u.sessionId]) {
      SessionFault(u, w);
    }
    if o.s.cursor == |es| {
      assert es[..o.s.cursor] == es;
    }
  }

  /** A step that only moves to another phase has only that phase to account for. */
  lemma PhaseMoves(u: Setup, w: World, o: Observer, phase: Phase)
    requires ObserverOk(u, w, o) && Running(o) && PhaseOk(u, w, o.(phase := phase))
    ensures ObserverOk(u, w, o.(phase := phase))
  {
  }

  /** The bundle that is served fits an observer at the end of the chain. */
  lemma ServedBundleFits(u: Setup, w: World)
    requires Inv(u.p, w) && GetBundle(w.db, u.sessionId).Ok?
    ensures var b := GetBundle(w.db, u.sessionId).value;
            && b.bundleHash == BundleHash(u.p, b)
            && b.head == HeadOf(Events(u, w)) && b.eventCount == |Events(u, w)|
    ensures exists n ::
            (u.sessionId, n) in w.db.bundles && w.db.bundles[(u.sessionId, n)] == GetBundle(w.db, u.sessionId).value
  {
    var n := LatestRevision(w.db, u.sessionId).value;
    BundleDescribesChain(u.p, w, u.sessionId, n);
    assert SessionOk(u.p, w.db, u.sessionId);
  }

  /** What an observer does when the evidence it fetches describes what it verified: it returns, or it stops
      because the bundle does not match its schema. */
  lemma FittingEvidence(u: Setup, w: World, o: Observer, b: Bundle)
    requires GetBundle(w.db, u.sessionId) == Ok(b) && b.bundleHash == BundleHash(u.p, b)
    requires Lower(b.head) == Lower(o.s.head) && b.eventCount == o.s.count
    ensures DoReadEvidence(u, w, o)
         == o.(phase := if BundleSchema(b)
               then Done(Observed(u.sessionId, o.s.cursor, o.s.count, o.s.head, b.bundleHash))
                        else Failed(SchemaRefused))
  {
  }

  lemma ReadEvidenceKeeps(u: Setup, w: World, o: Observer)
    requires Inv(u.p, w) && ObserverOk(u, w, o) && o.phase.AskingEvidence?
    ensures ObserverOk(u, w, DoReadEvidence(u, w, o))
  {
    var es := Events(u, w);
    assert es[..o.s.cursor] == es;
    if GetBundle(w.db, u.sessionId).Ok? {
      ServedBundleFits(u, w);
      FittingEvidence(u, w, o, GetBundle(w.db, u.sessionId).value);
    }
    var o' := DoReadEvidence(u, w, o);
    assert PhaseOk(u, w, o');
    PhaseMoves(u, w, o, o'.phase);
  }

  /** A new task changes neither the row nor what it stands for. */
  lemma AssignKeeps(u: Setup, w: World, o: Observer, task: Task)
    requires ObserverOk(u, w, o)
    ensures ObserverOk(u, w, Act(u, w, o, Assign(task)))
  {
  }

  lemma StreamActKeeps(u: Setup, w: World, o: Observer, a: Action)
    requires u.Lawful() && LowerCase(u.p) && Inv(u.p, w) && ObserverOk(u, w, o)
    requires !a.Assign? && (o.phase.Down? || o.phase.Listing? || o.phase.EmptyListed? || o.phase.ClosedSeen?)
    ensures ObserverOk(u, w, Act(u, w, o, a))
  {
    match (o.phase, a) {
      case (Down, Start) => StartKeeps(u, w, o);
      case (Listing, List) => ListKeeps(u, w, o);
      case (EmptyListed, ReadStatus(late)) => ReadStatusKeeps(u, w, o, late);
      case (ClosedSeen, Relist) => ListKeeps(u, w, o);
      case _ =>
    }
  }

  lemma CheckActKeeps(u: Setup, w: World, o: Observer, a: Action)
    requires Inv(u.p, w) && ObserverOk(u, w, o)
    requires !a.Assign? && !(o.phase.Down? || o.phase.Listing? || o.phase.EmptyListed? || o.phase.ClosedSeen?)
    ensures ObserverOk(u, w, Act(u, w, o, a))
  {
    match (o.phase, a) {
      case (Replaying(_, _), TakeNext) => TakeNextKeeps(u, w, o);
      case (AskingSession, ReadSession) => ReadSessionKeeps(u, w, o);
      case (AskingEvidence, ReadEvidence) => ReadEvidenceKeeps(u, w, o);
      case _ =>
    }
  }

  lemma ActKeeps(u: Setup, w: World, o: Observer, a: Action)
    requires u.Lawful() && LowerCase(u.p) && Inv(u.p, w) && ObserverOk(u, w, o)
    ensures ObserverOk(u, w, Act(u, w, o, a))
  {
    if a.Assign? {
      AssignKeeps(u, w, o, a.task);
    } else if o.phase.Down? || o.phase.Listing? || o.phase.EmptyListed? || o.phase.ClosedSeen? {
      StreamActKeeps(u, w, o, a);
    } else {
      CheckActKeeps(u, w, o, a);
    }
  }

  /** The invariant of every run: whatever interleaving, crashes and restarts included. */
  lemma {:induction false} RunsKeepInvariant(u: Setup, tasks: seq<Task>, steps: seq<Step>)
    requires u.Lawful() && LowerCase(u.p)
    ensures SystemOk(u, Run(u, tasks, steps))
  {
    if steps != [] {
      var y := Run(u, tasks, steps[..|steps| - 1]);
      RunsKeepInvariant(u, tasks, steps[..|steps| - 1]);
      match steps[|steps| - 1] {
        case Gateway(g) => GatewayStepKeeps(u, y, g);
        case Observe(i, a) =>
          if i < |y.observers| {
            ActKeeps(u, y.w, y.observers[i], a);
          }
      }
    }
  }

  // ---------------------------------------------------------------- the guarantees

  /** No false rejection: against a store that only the gateway writes, an observer can stop only with a
      limit or a timeout, because a committed record cannot pass the stream or does not match its schema, or
      because its agent's row lies before the task it was given; never with a gap, a broken chain, a cursor
      conflict or a bundle mismatch. */
  lemma NoFalseRejection(u: Setup, tasks: seq<Task>, steps: seq<Step>, i: nat)
    requires u.Lawful() && LowerCase(u.p)
    ensures var y := Run(u, tasks, steps);
            i < |y.observers| && y.observers[i].phase.Failed? ==>
              Explained(u, y.w, y.observers[i], y.observers[i].phase.error)
  {
    RunsKeepInvariant(u, tasks, steps);
    var y := Run(u, tasks, steps);
    if i < |y.observers| {
      assert ObserverOk(u, y.w, y.observers[i]);
    }
  }

  lemma RunContinues(u: Setup, tasks: seq<Task>, steps: seq<Step>, step: Step)
    ensures Run(u, tasks, steps + [step]) == Next(u, Run(u, tasks, steps), step)
  {
    assert (steps + [step])[..|steps|] == steps;
  }

  /** The rollback is exact: a committed task is refused when it is started if and only if the agent's row lies
      before its start, and otherwise the observation begins. */
  lemma RollbackExact(u: Setup, tasks: seq<Task>, steps: seq<Step>, i: nat)
    requires var y := Run(u, tasks, steps);
             i < |y.observers| && y.observers[i].phase.Down? && TaskCommitted(u, y.w, y.observers[i].task)
    ensures i < |Run(u, tasks, steps + [Observe(i, Start)]).observers|
    ensures var o, o' := Run(u, tasks, steps).observers[i], Run(u, tasks, steps + [Observe(i, Start)]).observers[i];
            && (o'.phase == Failed(CursorRollback) <==> RowBeforeTask(o))
            && (o'.phase == Listing <==> !RowBeforeTask(o))
  {
    RunContinues(u, tasks, steps, Observe(i, Start));
    var y := Run(u, tasks, steps);
    assert Act(u, y.w, y.observers[i], Start) == DoStart(u, y.w, y.observers[i]);
  }

  /** The task that begins at position `start` of the chain as it is now. */
  function TaskAt(u: Setup, w: World, start: nat): Task
    requires start <= |Events(u, w)|
  {
    Task(start, HeadOf(Events(u, w)[..start]))
  }

  lemma SessionOfEvents(u: Setup, w: World)
    requires Inv(u.p, w) && Events(u, w) != []
    ensures u.sessionId in w.db.sessions
  {
    EventsOfContents(w.db.events, u.sessionId);
    assert Events(u, w)[0] in Events(u, w);
  }

  /** A crash and a new task leave the store and the row as they are. */
  lemma Reassigned(u: Setup, y: System, i: nat, t: Task)
    requires i < |y.observers|
    ensures var y' := Next(u, Next(u, y, Observe(i, Crash)), Observe(i, Assign(t)));
            && y'.w == y.w && |y'.observers| == |y.observers|
            && y'.observers[i].phase.Down? && y'.observers[i].task == t && y'.observers[i].saved == y.observers[i].saved
  {
  }

  lemma TaskAtCommitted(u: Setup, w: World, start: nat)
    requires Inv(u.p, w) && 0 < start <= |Events(u, w)|
    ensures TaskCommitted(u, w, TaskAt(u, w, start))
  {
    SessionOfEvents(u, w);
  }

  /** After these steps observer `i` leaves what it was doing and is given another task. */
  function Handover(steps: seq<Step>, i: nat, t: Task): seq<Step> {
    steps + [Observe(i, Crash)] + [Observe(i, Assign(t))]
  }

  lemma HandoverRuns(u: Setup, tasks: seq<Task>, steps: seq<Step>, i: nat, t: Task)
    ensures Run(u, tasks, Handover(steps, i, t))
         == Next(u, Next(u, Run(u, tasks, steps), Observe(i, Crash)), Observe(i, Assign(t)))
  {
    RunContinues(u, tasks, steps, Observe(i, Crash));
    RunContinues(u, tasks, steps + [Observe(i, Crash)], Observe(i, Assign(t)));
  }

  /** It does happen: whenever the chain goes on beyond an agent's row, a later task for the same session that
      starts there is refused, although it is committed and the agent stands on a committed prefix. */
  lemma LaterTaskRefused(u: Setup, tasks: seq<Task>, steps: seq<Step>, i: nat, start: nat)
    requires u.Lawful() && LowerCase(u.p)
    requires var y := Run(u, tasks, steps);
             && i < |y.observers| && y.observers[i].saved.Some?
             && y.observers[i].saved.value.sequence < start <= |Events(u, y.w)|
    ensures var t := TaskAt(u, Run(u, tasks, steps).w, start);
            var y := Run(u, tasks, Handover(steps, i, t) + [Observe(i, Start)]);
            && TaskCommitted(u, Run(u, tasks, steps).w, t)
            && i < |y.observers| && y.observers[i].phase == Failed(CursorRollback)
  {
    RunsKeepInvariant(u, tasks, steps);
    var y := Run(u, tasks, steps);
    var t := TaskAt(u, y.w, start);
    TaskAtCommitted(u, y.w, start);
    Reassigned(u, y, i, t);
    HandoverRuns(u, tasks, steps, i, t);
    RollbackExact(u, tasks, Handover(steps, i, t), i);
  }

  lemma NextTakes(u: Setup, y: System, i: nat, o': Observer)
    requires i < |y.observers| && y.observers[i].phase.Replaying? && o' == DoTakeNext(u, y.w, y.observers[i])
    ensures Next(u, y, Observe(i, TakeNext)) == y.(observers := y.observers[i := o'])
  {
  }

  lemma TakeNextSaves(u: Setup, y: System, i: nat)
    requires i < |y.observers| && y.observers[i].phase.Replaying? && y.observers[i].phase.batch != []
    requires Inv(u.p, y.w) && ObserverOk(u, y.w, y.observers[i])
    requires !DoTakeNext(u, y.w, y.observers[i]).phase.Failed?
    ensures var y' := Next(u, y, Observe(i, TakeNext));
            && y'.w == y.w && i < |y'.observers| && y'.observers[i].saved.Some?
            && y'.observers[i].saved.value.sequence == y.observers[i].s.cursor + 1
  {
    TakeNextOutcome(u, y.w, y.observers[i]);
    NextTakes(u, y, i, DoTakeNext(u, y.w, y.observers[i]));
  }

  /** For example: an agent that stops between the first two events of a response is refused the task that starts
      after the second. */
  lemma StoppedBetweenEvents(u: Setup, tasks: seq<Task>, steps: seq<Step>, i: nat)
    requires u.Lawful() && LowerCase(u.p)
    requires var y := Run(u, tasks, steps);
             && i < |y.observers| && y.observers[i].phase.Replaying? && |y.observers[i].phase.batch| >= 2
             && !DoTakeNext(u, y.w, y.observers[i]).phase.Failed?
    ensures var taken, start := steps + [Observe(i, TakeNext)], Run(u, tasks, steps).observers[i].s.cursor + 2;
            && start <= |Events(u, Run(u, tasks, taken).w)|
            && var t := TaskAt(u, Run(u, tasks, taken).w, start);
               var y := Run(u, tasks, Handover(taken, i, t) + [Observe(i, Start)]);
               i < |y.observers| && y.observers[i].phase == Failed(CursorRollback)
  {
    var y := Run(u, tasks, steps);
    RunsKeepInvariant(u, tasks, steps);
    assert ObserverOk(u, y.w, y.observers[i]);
    RunContinues(u, tasks, steps, Observe(i, TakeNext));
    TakeNextSaves(u, y, i);
    LaterTaskRefused(u, tasks, steps + [Observe(i, TakeNext)], i, y.observers[i].s.cursor + 2);
  }

  lemma UncarriedSuffix(u: Setup, es: seq<LiveEvent>, c: nat, k: nat)
    requires c <= k < |es| && !u.carried(es[k])
    ensures es[c..] != [] && !u.AllCarried(es[c..])
  {
    assert es[c..][k - c] == es[k] && es[k] in es[c..];
  }

  lemma ListDelivers(u: Setup, w: World, o: Observer, batch: seq<LiveEvent>)
    requires batch == ListEvents(w.db, u.sessionId, o.s.cursor) && batch != []
    ensures DoList(u, w, o) == Deliver(u, o, batch, false)
  {
  }

  lemma ListRefuses(u: Setup, w: World, o: Observer, k: nat)
    requires u.Lawful() && Inv(u.p, w) && u.sessionId in w.db.sessions
    requires o.s.cursor <= k < |Events(u, w)| && !u.carried(Events(u, w)[k])
    ensures DoList(u, w, o).phase == Failed(StreamRefused) || DoList(u, w, o).phase == Failed(LiveStreamTooLarge)
  {
    var batch := Events(u, w)[o.s.cursor..];
    SessionFacts(u, w);
    UncarriedSuffix(u, Events(u, w), o.s.cursor, k);
    ListDelivers(u, w, o, batch);
    DeliverOutcome(u, o, batch, false);
  }

  /** The other way round: an observer that lists an event the stream cannot carry stops there and then. */
  lemma UnreadableStops(u: Setup, tasks: seq<Task>, steps: seq<Step>, i: nat, k: nat)
    requires u.Lawful() && LowerCase(u.p)
    requires var y := Run(u, tasks, steps);
             i < |y.observers| && y.observers[i].phase.Listing?
             && y.observers[i].s.cursor <= k < |Events(u, y.w)| && !u.carried(Events(u, y.w)[k])
    ensures var o := Run(u, tasks, steps + [Observe(i, List)]).observers[i];
            o.phase == Failed(StreamRefused) || o.phase == Failed(LiveStreamTooLarge)
  {
    RunsKeepInvariant(u, tasks, steps);
    var y := Run(u, tasks, steps);
    assert (steps + [Observe(i, List)])[..|steps|] == steps;
    assert ObserverOk(u, y.w, y.observers[i]);
    ListRefuses(u, y.w, y.observers[i], k);
    assert Act(u, y.w, y.observers[i], List) == DoList(u, y.w, y.observers[i]);
  }

  /** Observer `i` was given a task with this start. */
  ghost predicate WasGiven(tasks: seq<Task>, steps: seq<Step>, i: nat, start: nat)
    requires i < |tasks|
  {
    || start == tasks[i].start
    || exists k | 0 <= k < |steps| :: steps[k].Observe? && steps[k].i == i && steps[k].a.Assign?
                                      && steps[k].a.task.start == start
  }

  lemma GivenStays(tasks: seq<Task>, steps: seq<Step>, step: Step, i: nat, start: nat)
    requires i < |tasks| && WasGiven(tasks, steps, i, start)
    ensures WasGiven(tasks, steps + [step], i, start)
  {
    if start != tasks[i].start {
      var k :| 0 <= k < |steps| && steps[k].Observe? && steps[k].i == i && steps[k].a.Assign?
               && steps[k].a.task.start == start;
      assert (steps + [step])[k] == steps[k];
    }
  }

  lemma StepGives(u: Setup, y: System, step: Step, i: nat)
    requires i < |y.observers|
    ensures var o, o' := y.observers[i], Next(u, y, step).observers[i];
            && (o'.from == o.from || o'.from == o.task.start)
            && (o'.task == o.task || step == Observe(i, Assign(o'.task)))
  {
  }

  /** An observer works on a task it was given, and its row was begun under a task it was given. */
  lemma {:induction false} TasksAreGiven(u: Setup, tasks: seq<Task>, steps: seq<Step>, i: nat)
    requires i < |tasks|
    ensures var y := Run(u, tasks, steps);
            && |y.observers| == |tasks|
            && WasGiven(tasks, steps, i, y.observers[i].task.start) && WasGiven(tasks, steps, i, y.observers[i].from)
  {
    if steps != [] {
      var before, step := steps[..|steps| - 1], steps[|steps| - 1];
      var y := Run(u, tasks, before);
      assert steps == before + [step];
      TasksAreGiven(u, tasks, before, i);
      StepGives(u, y, step, i);
      GivenStays(tasks, before, step, i, y.observers[i].task.start);
      GivenStays(tasks, before, step, i, y.observers[i].from);
    }
  }

  /** So an observer returns only when every event passes the stream and its schema from the start of the task its
      row was begun under, and so do the session and the bundle it reports: one bad record after that start keeps
      it from ever returning. */
  lemma ReturnMeansReadable(u: Setup, tasks: seq<Task>, steps: seq<Step>, i: nat)
    requires u.Lawful() && LowerCase(u.p) && i < |tasks|
    ensures i < |Run(u, tasks, steps).observers|
    ensures var y := Run(u, tasks, steps);
            y.observers[i].phase.Done? ==>
              && WasGiven(tasks, steps, i, y.observers[i].from)
              && Readable(u, Events(u, y.w), y.observers[i].from, |Events(u, y.w)|)
              && Closed(u, y.w) && SessionSchema(y.w.db.sessions[u.sessionId])
              && (exists n :: (u.sessionId, n) in y.w.db.bundles && BundleSchema(y.w.db.bundles[(u.sessionId, n)])
                              && y.w.db.bundles[(u.sessionId, n)].bundleHash == y.observers[i].phase.result.bundleHash)
  {
    RunsKeepInvariant(u, tasks, steps);
    TasksAreGiven(u, tasks, steps, i);
    var y := Run(u, tasks, steps);
    assert ObserverOk(u, y.w, y.observers[i]);
  }

  /** While it runs, an observer stands on a committed prefix of the chain, and so does its saved row. */
  lemma CursorIsCommittedPrefix(u: Setup, tasks: seq<Task>, steps: seq<Step>, i: nat)
    requires u.Lawful() && LowerCase(u.p)
    ensures var y := Run(u, tasks, steps);
            i < |y.observers| ==>
              var o, es := y.observers[i], Events(u, y.w);
              && (Running(o) ==> o.s.cursor <= |es| && o.s.head == HeadOf(es[..o.s.cursor]))
              && (o.saved.Some? ==> o.saved.value.sequence <= |es|
                                    && o.saved.value.head == HeadOf(es[..o.saved.value.sequence]))
  {
    RunsKeepInvariant(u, tasks, steps);
    var y := Run(u, tasks, steps);
    if i < |y.observers| {
      assert ObserverOk(u, y.w, y.observers[i]);
    }
  }

  /** The second listing after the closed status makes the closing keepalive trustworthy: an observer
      that receives it has every event the session will ever have. */
  lemma ClosedKeepaliveMeansTerminal(u: Setup, tasks: seq<Task>, steps: seq<Step>, i: nat)
    requires u.Lawful() && LowerCase(u.p)
    ensures var y := Run(u, tasks, steps);
            i < |y.observers| && y.observers[i].phase.Replaying? && y.observers[i].phase.closedKeepalive ==>
              Closed(u, y.w) && y.observers[i].s.cursor == y.w.db.sessions[u.sessionId].nextSequence - 1
  {
    RunsKeepInvariant(u, tasks, steps);
    var y := Run(u, tasks, steps);
    if i < |y.observers| {
      assert ObserverOk(u, y.w, y.observers[i]);
      if Closed(u, y.w) {
        SessionFacts(u, y.w);
      }
    }
  }

  // ---------------------------------------------------------------- agreement

  lemma {:induction false} RunGrows(u: Setup, tasks: seq<Task>, steps: seq<Step>, n: nat)
    requires n <= |steps|
    ensures Grows(Run(u, tasks, steps[..n]).w, Run(u, tasks, steps).w)
  {
    if n == |steps| {
      assert steps[..n] == steps;
    } else {
      var before := steps[..|steps| - 1];
      assert before[..n] == steps[..n];
      RunGrows(u, tasks, before, n);
      match steps[|steps| - 1] {
        case Gateway(g) => StepGrows(u.p, Run(u, tasks, before).w, g);
        case Observe(_, _) =>
      }
      GrowsTransitive(Run(u, tasks, steps[..n]).w, Run(u, tasks, before).w, Run(u, tasks, steps).w);
    }
  }

  /** A result once given stays one: the session is closed, and its bundles are never replaced. */
  lemma {:induction false} ResultLasts(u: Setup, tasks: seq<Task>, steps: seq<Step>, n: nat, r: Observed)
    requires u.Lawful() && LowerCase(u.p) && n <= |steps| && IsResult(u, Run(u, tasks, steps[..n]).w, r)
    ensures IsResult(u, Run(u, tasks, steps).w, r)
  {
    if n == |steps| {
      assert steps[..n] == steps;
    } else {
      var before := steps[..|steps| - 1];
      assert before[..n] == steps[..n];
      ResultLasts(u, tasks, before, n, r);
      match steps[|steps| - 1] {
        case Gateway(g) =>
          var w := Run(u, tasks, before).w;
          RunsKeepInvariant(u, tasks, before);
          StepGrows(u.p, w, g);
          ClosedEventsFrozen(u.p, w, g, u.sessionId);
          ResultStays(u, w, Apply(u.p, w, g), r);
        case Observe(_, _) =>
      }
    }
  }

  /** Observer `i` has returned after `n` steps of the run. */
  ghost predicate Returned(u: Setup, tasks: seq<Task>, steps: seq<Step>, n: nat, i: nat) {
    n <= |steps| && var y := Run(u, tasks, steps[..n]); i < |y.observers| && y.observers[i].phase.Done?
  }

  ghost function ResultAt(u: Setup, tasks: seq<Task>, steps: seq<Step>, n: nat, i: nat): Observed
    requires Returned(u, tasks, steps, n, i)
  {
    Run(u, tasks, steps[..n]).observers[i].phase.result
  }

  lemma ReturnedResult(u: Setup, tasks: seq<Task>, steps: seq<Step>, n: nat, i: nat)
    requires u.Lawful() && LowerCase(u.p) && Returned(u, tasks, steps, n, i)
    ensures IsResult(u, Run(u, tasks, steps).w, ResultAt(u, tasks, steps, n, i))
  {
    RunsKeepInvariant(u, tasks, steps[..n]);
    var y := Run(u, tasks, steps[..n]);
    assert ObserverOk(u, y.w, y.observers[i]);
    ResultLasts(u, tasks, steps, n, ResultAt(u, tasks, steps, n, i));
  }

  ghost predicate OneRevision(u: Setup, w: World) {
    forall m, n :: (u.sessionId, m) in w.db.bundles && (u.sessionId, n) in w.db.bundles ==> m == n
  }

  /** Agreement: whenever two observers return in a run, or one of them twice, they report the same session,
      sequence, count and head, those of the closed session; and the hash each reports is that of a stored bundle
      of that session. If one revision was finalized, the bundle hashes are the same too. */
  lemma ObserversAgree(u: Setup, tasks: seq<Task>, steps: seq<Step>, m: nat, i: nat, n: nat, j: nat)
    requires u.Lawful() && LowerCase(u.p)
    requires Returned(u, tasks, steps, m, i) && Returned(u, tasks, steps, n, j)
    ensures var w := Run(u, tasks, steps).w;
            var a, b := ResultAt(u, tasks, steps, m, i), ResultAt(u, tasks, steps, n, j);
            && IsResult(u, w, a) && IsResult(u, w, b)
            && a.(bundleHash := "") == b.(bundleHash := "")
            && (OneRevision(u, w) ==> a == b)
  {
    ReturnedResult(u, tasks, steps, m, i);
    ReturnedResult(u, tasks, steps, n, j);
    ResultsAgree(u, Run(u, tasks, steps).w, ResultAt(u, tasks, steps, m, i), ResultAt(u, tasks, steps, n, j));
  }

  lemma ResultsAgree(u: Setup, w: World, a: Observed, b: Observed)
    requires IsResult(u, w, a) && IsResult(u, w, b)
    ensures a.(bundleHash := "") == b.(bundleHash := "") && (OneRevision(u, w) ==> a == b)
  {
  }
}
