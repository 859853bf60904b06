/** What an observation result proves about the events behind it, against any server at all. */
module ObservationHistory {
  import opened Wrappers
  import opened Text
  import opened Hashing
  import HashChain
  import opened LiveProtocol
  import opened LiveEvidence
  import opened Observation

  /** The checks an observer made on its i-th event, given the ones before it. */
  ghost predicate CheckedLink(p: Scheme, sessionId: string, es: seq<LiveEvent>, i: nat)
    requires i < |es|
  {
    && es[i].sessionId == sessionId && es[i].sequence == i + 1
    && Lower(es[i].previousHash) == Lower(HeadOf(es[..i])) && VerifyLiveEvent(p, es[i])
  }

  /** An observer that started at cursor 0 from the zero hash has checked exactly these events. */
  ghost predicate History(p: Scheme, sessionId: string, s: Progress, es: seq<LiveEvent>) {
    && s.cursor == |es| && s.head == HeadOf(es) && s.count == |es|
    && forall i | 0 <= i < |es| :: CheckedLink(p, sessionId, es, i)
  }

  lemma HistoryStarts(p: Scheme, sessionId: string)
    ensures var r := Resume(None, 0, ZERO_HASH);
            r.Ok? && History(p, sessionId, r.value, [])
  {
    ZeroHashIsLower();
  }

  lemma HistoryExtends(p: Scheme, sessionId: string, row: Option<CursorRow>, s: Progress, es: seq<LiveEvent>,
                       e: LiveEvent, reply: Option<bytes>)
    requires History(p, sessionId, s, es) && TakeEvent(p, sessionId, row, s, e, reply).Ok?
    ensures History(p, sessionId, TakeEvent(p, sessionId, row, s, e, reply).value, es + [e])
  {
    var all := es + [e];
    forall i | 0 <= i < |all|
      ensures CheckedLink(p, sessionId, all, i)
    {
      assert all[..i] == es[..i];
      if i < |es| {
        assert CheckedLink(p, sessionId, es, i);
      } else {
        assert es[..i] == es;
      }
    }
  }

  /** Two checked events, one of each history, that Keccak maps to one digest although their
      canonical bytes differ; or one whose digest is 32 zero bytes. */
  ghost predicate KeccakBroken(h: Hashes, a: seq<LiveEvent>, b: seq<LiveEvent>) {
    || (exists x, y | x in a && y in b ::
        HashedBytes(x) != HashedBytes(y) && h.keccak(HashedBytes(x)) == h.keccak(HashedBytes(y)))
    || (exists x | x in a + b :: h.keccak(HashedBytes(x)) == Zeros(32))
  }

  function EventLog(p: Scheme): HashChain.Log<LiveEvent, string> {
    HashChain.Log(ZERO_HASH, (e: LiveEvent) => EventHash(p, e), (e: LiveEvent) => Lower(e.previousHash))
  }

  lemma LinkIsPrevious(p: Scheme, sessionId: string, es: seq<LiveEvent>, i: nat)
    requires LowerCase(p) && i < |es| && forall k | 0 <= k <= i :: CheckedLink(p, sessionId, es, k)
    ensures Lower(es[i].previousHash) == if i == 0 then ZERO_HASH else EventHash(p, es[i - 1])
  {
    ZeroHashIsLower();
    assert CheckedLink(p, sessionId, es, i);
    if i > 0 {
      assert CheckedLink(p, sessionId, es, i - 1);
      assert es[..i][i - 1] == es[i - 1];
    }
  }

  lemma LinkedAt(p: Scheme, es: seq<LiveEvent>, i: nat, zero: string)
    requires i < |es| && zero == ZERO_HASH
    requires Lower(es[i].previousHash) == if i == 0 then zero else EventHash(p, es[i - 1])
    ensures EventLog(p).previous(es[i]) == HashChain.Head(EventLog(p), es[..i])
  {
    var front := es[..i];
    assert |front| == i && (i > 0 ==> front[i - 1] == es[i - 1]);
  }

  lemma HeadIsHead(p: Scheme, sessionId: string, s: Progress, es: seq<LiveEvent>)
    requires History(p, sessionId, s, es)
    ensures HashChain.Head(EventLog(p), es) == s.head
  {
    if es != [] {
      assert CheckedLink(p, sessionId, es, |es| - 1);
    }
  }

  lemma HistoryIsLinked(p: Scheme, sessionId: string, s: Progress, es: seq<LiveEvent>)
    requires LowerCase(p) && History(p, sessionId, s, es)
    ensures HashChain.Linked(EventLog(p), es) && HashChain.Head(EventLog(p), es) == s.head
  {
    forall i | 0 <= i < |es|
      ensures EventLog(p).previous(es[i]) == HashChain.Head(EventLog(p), es[..i])
    {
      LinkIsPrevious(p, sessionId, es, i);
      LinkedAt(p, es, i, ZERO_HASH);
    }
    HeadIsHead(p, sessionId, s, es);
  }

  /** The reported head commits the whole history. Two observers that report the same head have checked
      the same events, one for one and field for field, unless those events break Keccak. Neither the
      servers nor the artifacts they served need to be honest. */
  lemma HeadCommitsObservations(h: Hashes, sessionA: string, a: Progress, as': seq<LiveEvent>,
                                sessionB: string, b: Progress, bs: seq<LiveEvent>)
    requires History(LiveScheme(h), sessionA, a, as') && History(LiveScheme(h), sessionB, b, bs)
    requires a.head == b.head
    ensures as' == bs || KeccakBroken(h, as', bs)
  {
    var p := LiveScheme(h);
    LiveSchemeLowerCase(h);
    HistoryIsLinked(p, sessionA, a, as');
    HistoryIsLinked(p, sessionB, b, bs);
    HashChain.HeadCommitsHistory(EventLog(p), as', bs);
    if as' != bs {
      CollisionBreaksKeccak(h, sessionA, a, as', sessionB, b, bs);
    }
  }

  lemma ZeroDigest(h: Hashes, e: LiveEvent)
    requires EventHash(LiveScheme(h), e) == ZERO_HASH
    ensures h.keccak(HashedBytes(e)) == Zeros(32)
  {
    var x := h.keccak(HashedBytes(e.(eventHash := "")));
    assert HashedBytes(e.(eventHash := "")) == HashedBytes(e);
    assert ("0x" + Hex(x))[2..] == Hex(x) && ZERO_HASH[2..] == Hex(Zeros(32));
    HexInjective(x, Zeros(32));
  }

  lemma CheckedEventVerifies(p: Scheme, sessionId: string, s: Progress, es: seq<LiveEvent>, e: LiveEvent)
    requires History(p, sessionId, s, es) && e in es
    ensures VerifyLiveEvent(p, e)
  {
    var i :| 0 <= i < |es| && es[i] == e;
    assert CheckedLink(p, sessionId, es, i);
  }

  lemma CollisionBreaksKeccak(h: Hashes, sessionA: string, a: Progress, as': seq<LiveEvent>,
                              sessionB: string, b: Progress, bs: seq<LiveEvent>)
    requires History(LiveScheme(h), sessionA, a, as') && History(LiveScheme(h), sessionB, b, bs)
    requires HashChain.Collision(EventLog(LiveScheme(h)), as', bs)
    ensures KeccakBroken(h, as', bs)
  {
    var p := LiveScheme(h);
    if x, y :| x in as' && y in bs && x != y && EventHash(p, x) == EventHash(p, y) {
      CheckedEventVerifies(p, sessionA, a, as', x);
      CheckedEventVerifies(p, sessionB, b, bs, y);
      VerifiedHashCommits(h, x, y);
    } else {
      var x :| x in as' + bs && EventHash(p, x) == ZERO_HASH;
      ZeroDigest(h, x);
    }
  }
}
