/** The preflight lease a launcher hands to its supervisor through a pipe: written and read in whatever pieces
    the system allows, and good once, for one workspace and one launcher, for fifteen seconds. */
module PreflightLease {
  import opened Wrappers
  import opened Text
  import opened Json
  import opened Canonical
  import opened ReceiptText

  const MAX_BYTES := 65536
  const CHUNK := 4096
  const TTL_NS := 15000000000

  /** The pipe: what was written, how much of it was read, and how much the next calls move. A `write` that
      moves nothing is an error, a `read` that returns nothing is the end of the file. */
  class Pipe {
    var sent: bytes
    var taken: nat
    var closed: bool
    var script: seq<nat>

    constructor (script: seq<nat>)
      ensures sent == [] && taken == 0 && !closed && this.script == script
    {
      this.sent, this.taken, this.closed, this.script := [], 0, false, script;
    }

    method Amount(fallback: nat) returns (n: nat)
      modifies this`script
      ensures |script| <= |old(script)|
    {
      if script == [] {
        return fallback;
      }
      n, script := script[0], script[1..];
    }

    /** `os.write`: at most all of it. */
    method Write(data: bytes) returns (written: nat)
      modifies this`sent, this`script
      ensures written <= |data| && sent == old(sent) + data[..written]
    {
      var n := Amount(|data|);
      written := if n < |data| then n else |data|;
      sent := sent + data[..written];
    }

    /** `os.read`: something as long as there is something, and no more than was asked for. */
    method Read(limit: nat) returns (chunk: bytes)
      requires taken <= |sent| && limit > 0
      modifies this`taken, this`script
      ensures |chunk| <= limit && taken == old(taken) + |chunk| <= |sent|
      ensures chunk == sent[old(taken)..taken]
      ensures chunk == [] <==> old(taken) == |sent|
    {
      var left := |sent| - taken;
      var most := if limit < left then limit else left;
      var n := Amount(most);
      var size := if most == 0 then 0 else if n == 0 then 1 else if n < most then n else most;
      chunk := sent[taken..taken + size];
      taken := taken + size;
    }
  }

  /** `_write_lease_bytes`. Whatever the pieces, what arrives is the value, or a part of it from the start
      when a write fails; the descriptor is closed unless the value is refused for its size. */
  method WriteLeaseBytes(p: Pipe, value: bytes) returns (ok: bool)
    requires p.sent == [] && !p.closed
    modifies p
    ensures ok ==> p.sent == value && |value| <= MAX_BYTES
    ensures p.sent <= value && (|value| > MAX_BYTES ==> !ok && p.sent == [] && p.closed == old(p.closed))
    ensures |value| <= MAX_BYTES ==> p.closed
    ensures p.taken == old(p.taken)
  {
    if |value| > MAX_BYTES {
      return false;
    }
    var offset := 0;
    while offset < |value|
      invariant offset <= |value| && p.sent == value[..offset] && p.taken == old(p.taken)
    {
      var written := p.Write(value[offset..]);
      if written == 0 {
        p.closed := true;
        return false;
      }
      assert value[..offset] + value[offset..][..written] == value[..offset + written];
      offset := offset + written;
    }
    p.closed := true;
    ok := true;
  }

  datatype ReadError = TooLarge | Empty

  /** `_read_lease_bytes`. Whatever the pieces, the result is all that was sent, and more than the limit is
      refused after at most one chunk beyond it. */
  method ReadLeaseBytes(p: Pipe) returns (r: Result<bytes, ReadError>)
    requires p.taken == 0
    modifies p`taken, p`script
    ensures r.Ok? <==> 0 < |p.sent| <= MAX_BYTES
    ensures r.Ok? ==> r.value == p.sent
    ensures r == Err(Empty) <==> p.sent == []
    ensures p.taken <= MAX_BYTES + CHUNK && p.taken <= |p.sent|
  {
    var total: bytes := [];
    while true
      invariant p.taken <= |p.sent| && total == p.sent[..p.taken] && p.taken <= MAX_BYTES
      decreases |p.sent| - p.taken
    {
      var chunk := p.Read(CHUNK);
      if chunk == [] {
        break;
      }
      if |total| + |chunk| > MAX_BYTES {
        return Err(TooLarge);
      }
      total := total + chunk;
    }
    if total == [] {
      return Err(Empty);
    }
    r := Ok(total);
  }

  // ----- The lease -----

  /** `CapacityThresholds`; the one floating-point number is carried as its text. */
  datatype Thresholds = Thresholds(load: string, memory: int, cpus: int, disk: int)

  datatype Lease = Lease(leaseId: string, workspace: string, thresholds: Thresholds, preflight: Report,
                         launcherPid: int, launcherTicks: int, issued: int, expires: int)

  /** A preflight report as a Python dictionary can hold it: no key twice. */
  type Report = r: Json | UniqueKeys(r) witness JNull

  /** The JSON text of a lease, and whether a preflight report passes for a workspace and thresholds. */
  datatype Codec = Codec(encode: Lease -> bytes, decode: bytes -> Option<Lease>,
                         passing: (Report, string, Thresholds) -> bool)
  {
    /** A lease is read back with the keys of its report sorted, which is all one to the check of the report. */
    ghost predicate Lawful() {
      && (forall l :: encode(l) != [] && decode(encode(l)) == Some(Sorted(l)))
      && (forall r, w, t {:trigger passing(r, w, t)} :: passing(SortedReport(r), w, t) == passing(r, w, t))
    }
  }

  function SortedReport(r: Report): Report {
    NormalizeKeepsUnique(r);
    Normalize(r)
  }

  function Sorted(l: Lease): Lease {
    l.(preflight := SortedReport(l.preflight))
  }

  /** `[0-9a-f]{32}`, what `secrets.token_hex(16)` gives. */
  predicate LeaseIdText(id: string) {
    |id| == 32 && forall i | 0 <= i < 32 :: IsDigit(id[i]) || 'a' <= id[i] <= 'f'
  }

  /** `consume_shared_host_preflight_lease` on a decoded lease. */
  predicate Consumable(c: Codec, l: Lease, workspace: string, thresholds: Thresholds, pid: int, ticks: int, now: int) {
    && LeaseIdText(l.leaseId)
    && l.workspace == workspace && l.thresholds == thresholds && l.launcherPid == pid && l.launcherTicks == ticks
    && l.expires == l.issued + TTL_NS && l.issued <= now <= l.expires
    && c.passing(l.preflight, workspace, thresholds)
  }

  method ConsumeLease(c: Codec, p: Pipe, workspace: string, thresholds: Thresholds, pid: int, ticks: int, now: int)
    returns (r: Option<Lease>)
    requires p.taken == 0
    modifies p`taken, p`script
    ensures (r.Some? <==>
             (0 < |p.sent| <= MAX_BYTES && c.decode(p.sent).Some?
              && Consumable(c, c.decode(p.sent).value, workspace, thresholds, pid, ticks, now)))
    ensures r.Some? ==> r == c.decode(p.sent)
  {
    var read := ReadLeaseBytes(p);
    if read.Err? {
      return None;
    }
    r := c.decode(read.value);
    if r.Some? && !Consumable(c, r.value, workspace, thresholds, pid, ticks, now) {
      r := None;
    }
  }

  /** `create_shared_host_preflight_lease`: only a passing preflight is leased. The one way to leave the
      descriptor open is a lease over the limit: the writer refuses it before it takes the descriptor over,
      and the caller takes the write for started. */
  method CreateLease(c: Codec, p: Pipe, leaseId: string, workspace: string, thresholds: Thresholds, preflight: Report,
                     pid: int, ticks: int, now: int)
    returns (ok: bool)
    requires p.sent == [] && p.taken == 0 && !p.closed
    modifies p
    ensures ok ==> pid > 1 && ticks > 0 && c.passing(preflight, workspace, thresholds)
    ensures ok ==> p.sent == c.encode(Lease(leaseId, workspace, thresholds, preflight, pid, ticks, now, now + TTL_NS))
    ensures ok ==> |p.sent| <= MAX_BYTES && p.closed
    ensures p.taken == 0
    ensures (!p.closed <==>
             (pid > 1 && ticks > 0 && c.passing(preflight, workspace, thresholds)
              && (|c.encode(Lease(leaseId, workspace, thresholds, preflight, pid, ticks, now, now + TTL_NS))|
                  > MAX_BYTES)))
  {
    if pid <= 1 || ticks <= 0 || !c.passing(preflight, workspace, thresholds) {
      p.closed := true;
      return false;
    }
    ok := WriteLeaseBytes(p, c.encode(Lease(leaseId, workspace, thresholds, preflight, pid, ticks, now, now + TTL_NS)));
  }

  /** Whom a lease that was created is good for. */
  lemma SortedConsumable(c: Codec, l: Lease, workspace: string, thresholds: Thresholds, pid: int, ticks: int, now: int)
    requires c.Lawful() && LeaseIdText(l.leaseId) && l.expires == l.issued + TTL_NS
    requires c.passing(l.preflight, l.workspace, l.thresholds)
    ensures (Consumable(c, Sorted(l), workspace, thresholds, pid, ticks, now) <==>
             (workspace == l.workspace && thresholds == l.thresholds && pid == l.launcherPid && ticks == l.launcherTicks
              && l.issued <= now <= l.expires))
    ensures c.encode(l) != [] && c.decode(c.encode(l)) == Some(Sorted(l))
  {
    assert c.passing(SortedReport(l.preflight), l.workspace, l.thresholds)
        == c.passing(l.preflight, l.workspace, l.thresholds);
  }

  /** From launcher to supervisor: whatever the pieces, a lease that was created is accepted by exactly the
      workspace, the thresholds and the launcher it was made for, until fifteen seconds have passed. */
  method HandOver(c: Codec, p: Pipe, leaseId: string, workspace: string, thresholds: Thresholds, preflight: Report,
                  pid: int, ticks: int, now: int, otherWorkspace: string, otherThresholds: Thresholds, otherPid: int,
                  otherTicks: int, later: int)
    returns (created: bool, r: Option<Lease>)
    requires c.Lawful() && LeaseIdText(leaseId) && p.sent == [] && p.taken == 0 && !p.closed
    modifies p
    ensures (created ==>
             (r.Some? <==> (otherWorkspace == workspace && otherThresholds == thresholds && otherPid == pid
                            && otherTicks == ticks && now <= later <= now + TTL_NS)))
    ensures created && r.Some? ==> r.value.preflight == SortedReport(preflight) && r.value.issued == now
  {
    created := CreateLease(c, p, leaseId, workspace, thresholds, preflight, pid, ticks, now);
    r := None;
    if created {
      SortedConsumable(c, Lease(leaseId, workspace, thresholds, preflight, pid, ticks, now, now + TTL_NS),
                       otherWorkspace, otherThresholds, otherPid, otherTicks, later);
      r := ConsumeLease(c, p, otherWorkspace, otherThresholds, otherPid, otherTicks, later);
    }
  }
}
