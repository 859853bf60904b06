/** The JSON schemas of live events, sessions and evidence bundles, as far as a gateway's records can fail
    them. The gateway stores records without looking at their schema; observers check it. */
module LiveSchema {
  import opened Text
  import opened Hashing
  import opened LiveProtocol

  /** `$` in a Python pattern also matches in front of a final line feed. */
  function BeforeFinalBreak(s: string): string {
    if s != "" && s[|s| - 1] == '\n' then s[..|s| - 1] else s
  }

  /** `^[0-9]+$`. */
  predicate NumeralText(s: string) {
    BeforeFinalBreak(s) != "" && AllDigits(BeforeFinalBreak(s))
  }

  predicate IsHexDigit(c: char) {
    '0' <= c <= '9' || 'a' <= c <= 'f' || 'A' <= c <= 'F'
  }

  /** `^0x[0-9a-fA-F]{64}$`. */
  predicate KeccakText(s: string) {
    var t := BeforeFinalBreak(s);
    |t| == 66 && t[0] == '0' && t[1] == 'x' && forall i | 2 <= i < 66 :: IsHexDigit(t[i])
  }

  /** `^sha256:[0-9a-f]{64}$`. */
  predicate Sha256Text(s: string) {
    var t := BeforeFinalBreak(s);
    |t| == 71 && t[..7] == "sha256:" && forall i | 7 <= i < 71 :: IsHexDigit(t[i]) && LowerChar(t[i]) == t[i]
  }

  /** `live-event-v1.schema.json`. */
  predicate EventSchema(e: LiveEvent) {
    && e.eventId != "" && e.sessionId != "" && NumeralText(e.occurredAt) && e.sourceType != ""
    && Sha256Text(e.contentHash) && Sha256Text(e.artifactHash) && KeccakText(e.previousHash) && KeccakText(e.eventHash)
  }

  /** The fields of a session that are given when it is created or closed. */
  predicate SessionFields(s: Session) {
    && s.sessionId != "" && s.sourceType != "" && NumeralText(s.createdAt)
    && (s.closedAt.Some? ==> NumeralText(s.closedAt.value))
  }

  /** `live-session-v1.schema.json`. */
  predicate SessionSchema(s: Session) {
    SessionFields(s) && KeccakText(s.head)
  }

  /** `evidence-bundle-v2.schema.json`. */
  predicate BundleSchema(b: Bundle) {
    b.sessionId != "" && NumeralText(b.finalizedAt) && KeccakText(b.head) && KeccakText(b.bundleHash)
  }

  lemma {:induction false} HexIsHex(data: bytes)
    ensures forall i | 0 <= i < |Hex(data)| :: IsHexDigit(Hex(data)[i])
  {
    if data != [] {
      HexIsHex(data[1..]);
      var h := Hex(data);
      assert h[2..] == Hex(data[1..]);
      forall i | 0 <= i < |h|
        ensures IsHexDigit(h[i])
      {
        assert i >= 2 ==> h[i] == Hex(data[1..])[i - 2];
      }
    }
  }

  lemma {:induction false} ZerosLength(n: nat)
    ensures |Zeros(n)| == n
  {
    if n > 0 {
      ZerosLength(n - 1);
    }
  }

  /** A Keccak hash of 32 bytes, written out, matches the pattern. */
  lemma KeccakHexIsKeccakText(h: Hashes, data: bytes)
    requires |h.keccak(data)| == 32
    ensures KeccakText(h.Keccak256Hex(data))
  {
    var d, s := Hex(h.keccak(data)), h.Keccak256Hex(data);
    HexIsHex(h.keccak(data));
    assert s == "0x" + d && |s| == 66;
    assert s[65] == d[63];
    assert forall i | 2 <= i < 66 :: s[i] == d[i - 2];
    assert BeforeFinalBreak(s) == s;
  }

  lemma ZeroHashIsKeccakText(zero: string)
    requires zero == ZERO_HASH
    ensures KeccakText(zero)
  {
    ZerosLength(32);
    var d := Hex(Zeros(32));
    HexIsHex(Zeros(32));
    assert zero == "0x" + d && |zero| == 66;
    assert zero[65] == d[63];
    assert forall i | 2 <= i < 66 :: zero[i] == d[i - 2];
    assert BeforeFinalBreak(zero) == zero;
  }
}
