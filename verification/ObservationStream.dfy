/** The stream between gateway and observers as it is: framed text out of the gateway, JSON back at the observer. */
module ObservationStream {
  import opened Wrappers
  import opened Json
  import opened Canonical
  import opened Hashing
  import opened LiveProtocol
  import opened ObservationProtocol
  import EventStream
  import Utf8

  function FrameOf(e: LiveEvent): EventStream.Frame {
    EventStream.Frame(e.sequence, EventJson(e))
  }

  function FramesOf(es: seq<LiveEvent>): (fs: seq<EventStream.Frame>)
    ensures |fs| == |es| && forall i | 0 <= i < |es| :: fs[i] == FrameOf(es[i])
  {
    if es == [] then [] else [FrameOf(es[0])] + FramesOf(es[1..])
  }

  /** The JSON text of the event passes the line splitting. */
  predicate EventCarried(e: LiveEvent) {
    EventStream.Carried(EventStream.DataText(FrameOf(e)))
  }

  /** The event whose JSON, keys sorted as the gateway sends them, the value is. */
  ghost function EventOf(v: Json): (e: Option<LiveEvent>)
    ensures e.Some? ==> Normalize(EventJson(e.value)) == v
    ensures e.None? ==> forall x :: Normalize(EventJson(x)) != v
  {
    if exists x :: Normalize(EventJson(x)) == v then
      var x :| Normalize(EventJson(x)) == v;
      Some(x)
    else None
  }

  ghost function EventsOfJson(vs: seq<Json>): Option<seq<LiveEvent>> {
    if vs == [] then Some([])
    else
      var first, rest := EventOf(vs[0]), EventsOfJson(vs[1..]);
      if first.None? || rest.None? then None else Some([first.value] + rest.value)
  }

  ghost function ReadStream(text: string): Option<seq<LiveEvent>> {
    match EventStream.SseEvents(text)
    case None => None
    case Some(vs) => EventsOfJson(vs)
  }

  function SendStream(es: seq<LiveEvent>): string {
    EventStream.StreamBody(FramesOf(es))
  }

  /** Keccak event hashes, the event stream as text, measured in UTF-8 bytes. */
  ghost function LiveSetup(h: Hashes, sessionId: string): Setup {
    Setup(LiveScheme(h), sessionId, (es: seq<LiveEvent>) => SendStream(es), (text: string) => |Utf8.Encode(text)|,
          (text: string) => ReadStream(text), (e: LiveEvent) => EventCarried(e))
  }

  lemma {:induction false} ValuesRead(es: seq<LiveEvent>)
    ensures EventsOfJson(EventStream.Values(FramesOf(es))) == Some(es)
  {
    if es != [] {
      var v := Normalize(EventJson(es[0]));
      ValuesRead(es[1..]);
      assert FramesOf(es)[1..] == FramesOf(es[1..]);
      EventJsonInjective(EventOf(v).value, es[0]);
      assert es == [es[0]] + es[1..];
    }
  }

  lemma CarriedFrames(es: seq<LiveEvent>)
    ensures EventStream.AllCarried(FramesOf(es)) <==> forall e | e in es :: EventCarried(e)
  {
    var fs := FramesOf(es);
    if EventStream.AllCarried(fs) {
      forall e | e in es
        ensures EventCarried(e)
      {
        var i :| 0 <= i < |es| && es[i] == e;
        assert EventStream.Carried(EventStream.DataText(fs[i]));
      }
    } else {
      var i :| 0 <= i < |fs| && !EventStream.Carried(EventStream.DataText(fs[i]));
      assert es[i] in es && !EventCarried(es[i]);
    }
  }

  /** The text a gateway sends is read back event for event, or refused as a whole when one of the events
      holds a character the line splitting breaks on. */
  lemma SentIsRead(es: seq<LiveEvent>)
    ensures ReadStream(SendStream(es)) == if forall e | e in es :: EventCarried(e) then Some(es) else None
  {
    EventStream.StreamRoundTrip(FramesOf(es));
    CarriedFrames(es);
    ValuesRead(es);
  }

  lemma LiveSetupReads(h: Hashes, sessionId: string, es: seq<LiveEvent>)
    ensures var u := LiveSetup(h, sessionId);
            && u.read(u.body(es)) == ReadStream(SendStream(es))
            && (u.AllCarried(es) <==> forall e | e in es :: EventCarried(e))
  {
  }

  lemma LiveSetupReadsSent(h: Hashes, sessionId: string, u: Setup, es: seq<LiveEvent>)
    requires u == LiveSetup(h, sessionId)
    ensures u.read(u.body(es)) == if u.AllCarried(es) then Some(es) else None
  {
    LiveSetupReads(h, sessionId, es);
    SentIsRead(es);
  }

  lemma LawfulSetup(h: Hashes, sessionId: string, u: Setup)
    requires u == LiveSetup(h, sessionId)
    ensures u.Lawful()
  {
    forall es
      ensures u.read(u.body(es)) == if u.AllCarried(es) then Some(es) else None
    {
      LiveSetupReadsSent(h, sessionId, u, es);
    }
  }

  lemma LiveSetupLawful(h: Hashes, sessionId: string)
    ensures LiveSetup(h, sessionId).Lawful() && LowerCase(LiveSetup(h, sessionId).p)
  {
    LiveSchemeLowerCase(h);
    LawfulSetup(h, sessionId, LiveSetup(h, sessionId));
  }

  /** The whole path: with the real hashes, framing, printer, line splitting and parser in between, observers
      of a gateway stop only for the reasons `Explained` lists. */
  lemma LiveObserversStopOnlyFor(h: Hashes, sessionId: string, tasks: seq<Task>, steps: seq<Step>, i: nat)
    ensures var u := LiveSetup(h, sessionId);
            var y := Run(u, tasks, steps);
            i < |y.observers| && y.observers[i].phase.Failed? ==>
              Explained(u, y.w, y.observers[i], y.observers[i].phase.error)
  {
    LiveSetupLawful(h, sessionId);
    NoFalseRejection(LiveSetup(h, sessionId), tasks, steps, i);
  }
}
