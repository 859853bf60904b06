/** Live sessions, hash-linked events and evidence bundles as records, with the JSON they hash to. */
module LiveProtocol {
  import opened Wrappers
  import opened Text
  import opened Json
  import opened Canonical
  import opened Hashing
  import Utf8

  datatype Category = Source | Summary | Derived

  function Zeros(n: nat): bytes {
    if n == 0 then [] else [0] + Zeros(n - 1)
  }

  /** `"0x" + "00" * 32`, the head of an empty chain. */
  const ZERO_HASH: string := "0x" + Hex(Zeros(32))

  /** A session row. `status` is `closed` or `live`. */
  datatype Session = Session(sessionId: string, sourceType: string, createdAt: string, closed: bool,
                             closedAt: Option<string>, nextSequence: nat, head: string)

  datatype LiveEvent = LiveEvent(eventId: string, sessionId: string, sequence: nat, occurredAt: string,
                                 category: Category, sourceType: string, sourceUri: Option<string>,
                                 content: string, contentHash: string, artifactHash: string,
                                 mediaUrl: Option<string>, mediaHash: Option<string>,
                                 previousHash: string, eventHash: string)

  datatype Reference = Reference(eventId: string, sequence: nat, category: Category,
                                 eventHash: string, artifactHash: string)

  datatype Counts = Counts(source: nat, summary: nat, derived: nat) {
    function Add(c: Category): Counts {
      match c
      case Source => this.(source := source + 1)
      case Summary => this.(summary := summary + 1)
      case Derived => this.(derived := derived + 1)
    }

    function Total(): nat { source + summary + derived }
  }

  datatype Bundle = Bundle(sessionId: string, revision: nat, finalizedAt: string, eventCount: nat, head: string,
                           counts: Counts, events: seq<Reference>, bundleHash: string)

  // ---------------------------------------------------------------- JSON views

  function CategoryName(c: Category): string {
    match c
    case Source => "source"
    case Summary => "summary"
    case Derived => "derived"
  }

  lemma CategoryNameInjective(a: Category, b: Category)
    requires CategoryName(a) == CategoryName(b)
    ensures a == b
  {
    assert CategoryName(a)[0] == CategoryName(b)[0] && CategoryName(a)[1] == CategoryName(b)[1];
  }

  function OptionJson(s: Option<string>): Json {
    if s.None? then JNull else JStr(s.value)
  }

  /** The event without `event_hash`, the value its hash is taken over. */
  function EventMembers(e: LiveEvent): seq<Member> {
    [("schema_version", JStr("loveengine.live-event/1")),
     ("event_id", JStr(e.eventId)),
     ("session_id", JStr(e.sessionId)),
     ("sequence", JStr(Decimal(e.sequence))),
     ("occurred_at", JStr(e.occurredAt)),
     ("category", JStr(CategoryName(e.category))),
     ("source_type", JStr(e.sourceType)),
     ("source_uri", OptionJson(e.sourceUri)),
     ("content", JStr(e.content)),
     ("content_hash", JStr(e.contentHash)),
     ("artifact_hash", JStr(e.artifactHash)),
     ("media_url", OptionJson(e.mediaUrl)),
     ("media_hash", OptionJson(e.mediaHash)),
     ("previous_event_hash", JStr(e.previousHash))]
  }

  function EventJson(e: LiveEvent): Json {
    JObj(EventMembers(e) + [("event_hash", JStr(e.eventHash))])
  }

  function HashedBytes(e: LiveEvent): bytes {
    CanonicalBytes(JObj(EventMembers(e)))
  }

  function LiveEventHash(h: Hashes, e: LiveEvent): string {
    h.Keccak256Hex(HashedBytes(e))
  }

  lemma MembersDetermineEvent(a: LiveEvent, b: LiveEvent)
    requires forall i | 0 <= i < 14 :: Normalize(EventMembers(a)[i].1) == Normalize(EventMembers(b)[i].1)
    ensures a.(eventHash := "") == b.(eventHash := "")
  {
    var m, n := EventMembers(a), EventMembers(b);
    forall i | 0 <= i < 14
      ensures m[i].1 == n[i].1
    {
      assert Normalize(m[i].1) == m[i].1 && Normalize(n[i].1) == n[i].1;
    }
    assert m[1].1 == n[1].1 && m[2].1 == n[2].1 && m[3].1 == n[3].1 && m[4].1 == n[4].1 && m[5].1 == n[5].1;
    assert m[6].1 == n[6].1 && m[7].1 == n[7].1 && m[8].1 == n[8].1 && m[9].1 == n[9].1 && m[10].1 == n[10].1;
    assert m[11].1 == n[11].1 && m[12].1 == n[12].1 && m[13].1 == n[13].1;
    DecimalRoundTrip(a.sequence);
    DecimalRoundTrip(b.sequence);
    CategoryNameInjective(a.category, b.category);
  }

  lemma NormalMembersAgree(a: LiveEvent, b: LiveEvent)
    requires Normalize(JObj(EventMembers(a))) == Normalize(JObj(EventMembers(b)))
    ensures forall i | 0 <= i < 14 :: Normalize(EventMembers(a)[i].1) == Normalize(EventMembers(b)[i].1)
  {
    RecordInjective(EventMembers(a), EventMembers(b));
  }

  /** The hashed bytes determine every field of the event except the hash itself. */
  lemma HashedBytesInjective(a: LiveEvent, b: LiveEvent)
    requires HashedBytes(a) == HashedBytes(b)
    ensures a.(eventHash := "") == b.(eventHash := "")
  {
    SameBytesSameNormal(JObj(EventMembers(a)), JObj(EventMembers(b)));
    NormalMembersAgree(a, b);
    MembersDetermineEvent(a, b);
  }

  lemma EventJsonInjective(a: LiveEvent, b: LiveEvent)
    requires Normalize(EventJson(a)) == Normalize(EventJson(b))
    ensures a == b
  {
    var m, n := EventMembers(a) + [("event_hash", JStr(a.eventHash))],
                EventMembers(b) + [("event_hash", JStr(b.eventHash))];
    RecordInjective(m, n);
    forall i | 0 <= i < 14
      ensures Normalize(EventMembers(a)[i].1) == Normalize(EventMembers(b)[i].1)
    {
      assert m[i] == EventMembers(a)[i] && n[i] == EventMembers(b)[i];
    }
    MembersDetermineEvent(a, b);
    assert Normalize(m[14].1) == Normalize(n[14].1);
  }

  /** The comparison `append_event` makes on canonical bytes is equality of events. */
  lemma EventBytesDecideEquality(a: LiveEvent, b: LiveEvent)
    ensures CanonicalBytes(EventJson(a)) == CanonicalBytes(EventJson(b)) <==> a == b
  {
    SameBytesSameNormal(EventJson(a), EventJson(b));
    if Normalize(EventJson(a)) == Normalize(EventJson(b)) {
      EventJsonInjective(a, b);
    }
  }

  function ReferenceMembers(r: Reference): seq<Member> {
    [("event_id", JStr(r.eventId)),
     ("sequence", JStr(Decimal(r.sequence))),
     ("category", JStr(CategoryName(r.category))),
     ("event_hash", JStr(r.eventHash)),
     ("artifact_hash", JStr(r.artifactHash))]
  }

  function ReferencesJson(rs: seq<Reference>): (r: seq<Json>)
    ensures |r| == |rs|
    ensures forall i | 0 <= i < |rs| :: r[i] == JObj(ReferenceMembers(rs[i]))
  {
    if rs == [] then [] else [JObj(ReferenceMembers(rs[0]))] + ReferencesJson(rs[1..])
  }

  function CountsMembers(c: Counts): seq<Member> {
    [("source", JStr(Decimal(c.source))),
     ("summary", JStr(Decimal(c.summary))),
     ("derived", JStr(Decimal(c.derived)))]
  }

  /** The bundle without `bundle_hash`. */
  function BundleMembers(b: Bundle): seq<Member> {
    [("schema_version", JStr("loveengine.evidence-bundle/2")),
     ("bundle_id", JStr(b.sessionId + ":r" + Decimal(b.revision))),
     ("session_id", JStr(b.sessionId)),
     ("revision", JStr(Decimal(b.revision))),
     ("status", JStr("finalized")),
     ("finalized_at", JStr(b.finalizedAt)),
     ("event_count", JStr(Decimal(b.eventCount))),
     ("head_event_hash", JStr(b.head)),
     ("category_counts", JObj(CountsMembers(b.counts))),
     ("events", JArr(ReferencesJson(b.events)))]
  }

  function BundleBytes(b: Bundle): bytes {
    CanonicalBytes(JObj(BundleMembers(b)))
  }

  function EvidenceBundleHash(h: Hashes, b: Bundle): string {
    h.Keccak256Hex(BundleBytes(b))
  }

  lemma ReferenceInjective(a: Reference, b: Reference)
    requires Normalize(JObj(ReferenceMembers(a))) == Normalize(JObj(ReferenceMembers(b)))
    ensures a == b
  {
    var m, n := ReferenceMembers(a), ReferenceMembers(b);
    RecordInjective(m, n);
    assert Normalize(m[0].1) == Normalize(n[0].1) && Normalize(m[1].1) == Normalize(n[1].1);
    assert Normalize(m[2].1) == Normalize(n[2].1) && Normalize(m[3].1) == Normalize(n[3].1);
    assert Normalize(m[4].1) == Normalize(n[4].1);
    DecimalRoundTrip(a.sequence);
    DecimalRoundTrip(b.sequence);
    CategoryNameInjective(a.category, b.category);
  }

  lemma CountsInjective(a: Counts, b: Counts)
    requires Normalize(JObj(CountsMembers(a))) == Normalize(JObj(CountsMembers(b)))
    ensures a == b
  {
    var m, n := CountsMembers(a), CountsMembers(b);
    RecordInjective(m, n);
    assert Normalize(m[0].1) == Normalize(n[0].1) && Normalize(m[1].1) == Normalize(n[1].1);
    assert Normalize(m[2].1) == Normalize(n[2].1);
    DecimalRoundTrip(a.source);
    DecimalRoundTrip(b.source);
    DecimalRoundTrip(a.summary);
    DecimalRoundTrip(b.summary);
    DecimalRoundTrip(a.derived);
    DecimalRoundTrip(b.derived);
  }

  lemma ReferencesInjective(a: seq<Reference>, b: seq<Reference>)
    requires Normalize(JArr(ReferencesJson(a))) == Normalize(JArr(ReferencesJson(b)))
    ensures a == b
  {
    var m, n := NormalizeAll(ReferencesJson(a)), NormalizeAll(ReferencesJson(b));
    assert |m| == |a| && |n| == |b| && m == n;
    forall i | 0 <= i < |a|
      ensures a[i] == b[i]
    {
      assert m[i] == n[i];
      ReferenceInjective(a[i], b[i]);
    }
  }

  lemma BundleScalars(a: Bundle, b: Bundle)
    requires forall i | 2 <= i < 8 :: Normalize(BundleMembers(a)[i].1) == Normalize(BundleMembers(b)[i].1)
    ensures a.sessionId == b.sessionId && a.revision == b.revision && a.finalizedAt == b.finalizedAt
    ensures a.eventCount == b.eventCount && a.head == b.head
  {
    var m, n := BundleMembers(a), BundleMembers(b);
    assert Normalize(m[2].1) == m[2].1 && Normalize(n[2].1) == n[2].1;
    assert Normalize(m[3].1) == m[3].1 && Normalize(n[3].1) == n[3].1;
    assert Normalize(m[5].1) == m[5].1 && Normalize(n[5].1) == n[5].1;
    assert Normalize(m[6].1) == m[6].1 && Normalize(n[6].1) == n[6].1;
    assert Normalize(m[7].1) == m[7].1 && Normalize(n[7].1) == n[7].1;
    DecimalRoundTrip(a.revision);
    DecimalRoundTrip(b.revision);
    DecimalRoundTrip(a.eventCount);
    DecimalRoundTrip(b.eventCount);
  }

  lemma BundleMembersAgree(a: Bundle, b: Bundle)
    requires BundleBytes(a) == BundleBytes(b)
    ensures forall i | 0 <= i < 10 :: Normalize(BundleMembers(a)[i].1) == Normalize(BundleMembers(b)[i].1)
  {
    SameBytesSameNormal(JObj(BundleMembers(a)), JObj(BundleMembers(b)));
    RecordInjective(BundleMembers(a), BundleMembers(b));
  }

  /** A bundle hash commits revision, time, head, counts and every reference of the bundle. */
  lemma BundleBytesInjective(a: Bundle, b: Bundle)
    requires BundleBytes(a) == BundleBytes(b)
    ensures a.(bundleHash := "") == b.(bundleHash := "")
  {
    BundleMembersAgree(a, b);
    BundleScalars(a, b);
    assert BundleMembers(a)[8].1 == JObj(CountsMembers(a.counts));
    assert BundleMembers(b)[8].1 == JObj(CountsMembers(b.counts));
    CountsInjective(a.counts, b.counts);
    assert BundleMembers(a)[9].1 == JArr(ReferencesJson(a.events));
    assert BundleMembers(b)[9].1 == JArr(ReferencesJson(b.events));
    ReferencesInjective(a.events, b.events);
  }

  // ---------------------------------------------------------------- builders and checkers

  function BuildLiveSession(sessionId: string, sourceType: string, createdAt: string): Session {
    Session(sessionId, sourceType, createdAt, false, None, 1, ZERO_HASH)
  }

  /** The three hashes of the live protocol. The stores, the gateway and the observers only
      ever call them, so everything about those is proved for any such functions; `LiveScheme`
      is the scheme the repository uses. Event and bundle hashes are taken over the record
      without its own hash field, which is blank here. */
  datatype Scheme = Scheme(digest: bytes -> string, eventHash: LiveEvent -> string, bundleHash: Bundle -> string)

  function LiveScheme(h: Hashes): Scheme {
    Scheme(data => h.Sha256Prefixed(data), e => LiveEventHash(h, e), b => EvidenceBundleHash(h, b))
  }

  function ContentHash(p: Scheme, content: string): string {
    p.digest(Utf8.Encode(content))
  }

  function EventHash(p: Scheme, e: LiveEvent): string {
    p.eventHash(e.(eventHash := ""))
  }

  function BundleHash(p: Scheme, b: Bundle): string {
    p.bundleHash(b.(bundleHash := ""))
  }

  function BuildLiveEvent(p: Scheme, eventId: string, sessionId: string, sequence: nat, occurredAt: string,
                          category: Category, sourceType: string, content: string, artifactHash: string,
                          previousHash: string, sourceUri: Option<string>, mediaUrl: Option<string>,
                          mediaHash: Option<string>): (e: LiveEvent)
    ensures VerifyLiveEvent(p, e)
  {
    var e := LiveEvent(eventId, sessionId, sequence, occurredAt, category, sourceType, sourceUri, content,
                       ContentHash(p, content), artifactHash, mediaUrl, mediaHash, Lower(previousHash), "");
    e.(eventHash := EventHash(p, e))
  }

  predicate VerifyLiveEvent(p: Scheme, e: LiveEvent) {
    e.contentHash == ContentHash(p, e.content) && e.eventHash == EventHash(p, e)
  }

  /** Two verified events with one hash are one event, or they give a collision of Keccak itself. */
  lemma VerifiedHashCommits(h: Hashes, a: LiveEvent, b: LiveEvent)
    requires VerifyLiveEvent(LiveScheme(h), a) && VerifyLiveEvent(LiveScheme(h), b) && a.eventHash == b.eventHash
    ensures a == b || (HashedBytes(a) != HashedBytes(b) && h.keccak(HashedBytes(a)) == h.keccak(HashedBytes(b)))
  {
    assert HashedBytes(a) == HashedBytes(a.(eventHash := "")) && HashedBytes(b) == HashedBytes(b.(eventHash := ""));
    h.KeccakHexInjective(HashedBytes(a), HashedBytes(b));
    if HashedBytes(a) == HashedBytes(b) {
      HashedBytesInjective(a, b);
      assert a == a.(eventHash := "").(eventHash := a.eventHash);
      assert b == b.(eventHash := "").(eventHash := b.eventHash);
    }
  }

  /** Event hashes are lower-case text, so the observers' `.lower()` comparisons lose nothing on them. */
  ghost predicate LowerCase(p: Scheme) {
    forall e :: Lower(p.eventHash(e)) == p.eventHash(e)
  }

  lemma LiveSchemeLowerCase(h: Hashes)
    ensures LowerCase(LiveScheme(h))
  {
    forall e: LiveEvent
      ensures Lower(LiveScheme(h).eventHash(e)) == LiveScheme(h).eventHash(e)
    {
      h.KeccakHexIsLower(HashedBytes(e));
    }
  }

  lemma ZeroHashIsLower()
    ensures Lower(ZERO_HASH) == ZERO_HASH
  {
    HexIsLower(Zeros(32));
    LowerConcat("0x", Hex(Zeros(32)));
    assert Lower("0x") == "0x";
  }
}
