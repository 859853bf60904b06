/** `_watch_owned_group`, `stop_owned_quickstart_group` and `_stop_failed_start`: a guardian that signals a
    process group only on strict evidence. The Core variants differ from the Quickstart ones in the
    script they expect on the command line alone. Times are in milliseconds. */
module Guardian {
  import opened Wrappers

  /** What `/proc/<pid>` says at one moment. */
  datatype Reading =
    | Missing
    | Unreadable
    | Entry(zombie: bool, group: int, session: int, ticks: int, argv: seq<string>)

  datatype State = IdentityUnavailable | IdentityMismatch | Absent | Live

  datatype Signal = Term | Kill

  datatype Event = SawState(state: State) | SawMembers(members: Option<bool>) | Sent(signal: Signal) | Paused

  datatype Status =
    | TargetExitedBeforeDeadline
    | Terminated
    | Killed
    | TargetAbsent
    | TargetIdentityMismatch
    | TargetIdentityUnavailable
    | InspectionUnavailable
    | MembershipInconsistent
    | ControlUnavailable
    | TerminationTimeout

  datatype Outcome = Outcome(status: Status, terminated: bool)

  /** `WATCHDOG_SAFE_TERMINAL_STATUSES`, with which the guardian exits 0. */
  predicate SafeStatus(s: Status) {
    s in {TargetExitedBeforeDeadline, Terminated, Killed, TargetAbsent}
  }

  function Count(s: string, argv: seq<string>): nat {
    if argv == [] then 0 else (if argv[0] == s then 1 else 0) + Count(s, argv[1..])
  }

  predicate ExactArgv(argv: seq<string>, script: string, mode: string) {
    && |argv| >= 3 && argv[1] == script && argv[2] == mode
    && Count(script, argv) == 1 && Count(mode, argv) == 1
  }

  /** What identifies the guarded leader. */
  datatype Target = Target(pid: int, ticks: int, script: string, mode: string) {
    predicate Identified(r: Reading) {
      r.Entry? && r.ticks == ticks && r.group == pid && r.session == pid && ExactArgv(r.argv, script, mode)
    }

    /** `_owned_quickstart_state` and `_owned_core_state`. */
    function OwnedState(r: Reading): (s: State) {
      if pid <= 1 || ticks <= 0 then IdentityMismatch
      else match r
        case Missing => Absent
        case Unreadable => IdentityMismatch
        case Entry(zombie, _, _, _, _) =>
          if !Identified(r) then IdentityMismatch else if zombie then Absent else Live
    }

    /** `_owned_failed_start_state`, whose start ticks may be unknown. */
    function FailedStartState(r: Reading): State {
      if pid <= 1 || ticks <= 0 then IdentityUnavailable else OwnedState(r)
    }
  }

  /** What happens in the host around one call: members may leave the group, time passes, and an
      observation may be anything the call can report. */
  datatype Moment = Moment(leave: bool, reading: Reading, unreadable: bool, lost: bool, elapsed: nat)

  function Calmest(): Moment {
    Moment(true, Missing, false, true, 0)
  }

  /** What happens around the next call, and after it. */
  function Head(script: seq<Moment>): Moment {
    if script == [] then Calmest() else script[0]
  }

  function Rest(script: seq<Moment>): seq<Moment> {
    if script == [] then [] else script[1..]
  }

  /** The reading the next call gets. */
  function Observed(script: seq<Moment>): Reading {
    Head(script).reading
  }

  /** The host as the guardian can reach it. `live` is whether the owned group really has a live member:
      a group that is empty stays empty, and a scan is one atomic look. */
  class Host {
    var clock: nat
    var live: bool
    var trace: seq<Event>
    var script: seq<Moment>
    const canSignal: bool

    constructor (clock: nat, live: bool, script: seq<Moment>, canSignal: bool)
      ensures this.clock == clock && this.live == live && trace == [] && this.script == script
    {
      this.clock, this.live, this.trace, this.script, this.canSignal := clock, live, [], script, canSignal;
    }

    /** One step of the host. */
    method Pass() returns (m: Moment)
      modifies this`clock, this`live, this`script
      ensures m == Head(old(script)) && script == Rest(old(script))
      ensures clock == old(clock) + m.elapsed && live == (old(live) && !m.leave)
    {
      if script == [] {
        m := Calmest();
      } else {
        m := script[0];
        script := script[1..];
      }
      clock := clock + m.elapsed;
      live := live && !m.leave;
    }

    method ReadState(t: Target, failedStart: bool) returns (s: State)
      modifies this
      ensures clock >= old(clock) && (live ==> old(live)) && trace == old(trace) + [SawState(s)]
      ensures s == if failedStart then t.FailedStartState(Observed(old(script)))
                   else t.OwnedState(Observed(old(script)))
      ensures !failedStart ==> s != IdentityUnavailable
      ensures clock == old(clock) + Head(old(script)).elapsed && live == (old(live) && !Head(old(script)).leave)
      ensures script == Rest(old(script))
    {
      var m := Pass();
      s := if failedStart then t.FailedStartState(m.reading) else t.OwnedState(m.reading);
      trace := trace + [SawState(s)];
    }

    /** `_owned_session_group_has_live_members`: nothing is known when `/proc` cannot be read. */
    method ScanMembers() returns (members: Option<bool>)
      modifies this
      ensures clock >= old(clock) && (live ==> old(live)) && trace == old(trace) + [SawMembers(members)]
      ensures members == if Head(old(script)).unreadable then None else Some(live)
      ensures clock == old(clock) + Head(old(script)).elapsed && live == (old(live) && !Head(old(script)).leave)
      ensures script == Rest(old(script))
    {
      var m := Pass();
      members := if m.unreadable then None else Some(live);
      trace := trace + [SawMembers(members)];
    }

    /** `killpg`: false when there is no such group, which only an empty group allows. */
    method KillGroup(s: Signal) returns (found: bool)
      modifies this
      ensures clock >= old(clock) && (live ==> old(live)) && trace == old(trace) + [Sent(s)]
      ensures !found ==> !live
    {
      var m := Pass();
      found := live || !m.lost;
      trace := trace + [Sent(s)];
    }

    method Sleep(ms: nat)
      modifies this
      ensures clock >= old(clock) + ms && (live ==> old(live)) && trace == old(trace) + [Paused]
    {
      var m := Pass();
      clock := clock + ms;
      trace := trace + [Paused];
    }
  }

  // ----- What a run may do -----

  predicate Mismatch(e: Event) {
    e == SawState(IdentityMismatch)
  }

  /** The leader is the one expected, or it is gone. */
  predicate Accepted(e: Event) {
    e.SawState? && (e.state.Absent? || e.state.Live?)
  }

  /** No signal follows an identity mismatch. */
  predicate QuietAfterMismatch(t: seq<Event>) {
    forall i, j | 0 <= i < j < |t| && Mismatch(t[i]) :: !t[j].Sent?
  }

  /** Every signal follows directly on a live membership scan, and that on an accepted state check. */
  predicate Evidenced(t: seq<Event>) {
    forall j | 0 <= j < |t| && t[j].Sent? ::
      2 <= j && t[j - 1] == SawMembers(Some(true)) && Accepted(t[j - 2])
  }

  function Signals(t: seq<Event>): seq<Signal> {
    if t == [] then []
    else Signals(t[..|t| - 1]) + (if t[|t| - 1].Sent? then [t[|t| - 1].signal] else [])
  }

  predicate NoMismatch(t: seq<Event>) {
    forall j | 0 <= j < |t| :: !Mismatch(t[j])
  }

  /** SIGTERM first, SIGKILL at most once and only after it. */
  predicate Escalation(sent: seq<Signal>) {
    |sent| <= 2 && (|sent| >= 1 ==> sent[0] == Term) && (|sent| == 2 ==> sent[1] == Kill)
  }

  /** The guardian's whole discipline. */
  predicate Disciplined(t: seq<Event>) {
    QuietAfterMismatch(t) && Evidenced(t) && Escalation(Signals(t))
  }

  /** Looking and waiting keep the discipline. */
  lemma LookOn(t: seq<Event>, e: Event)
    requires Disciplined(t) && !e.Sent?
    ensures Disciplined(t + [e]) && Signals(t + [e]) == Signals(t)
    ensures NoMismatch(t) && !Mismatch(e) ==> NoMismatch(t + [e])
  {
    SignalsOn(t, e);
    EvidenceOn(t, e);
  }

  lemma SignalsOn(t: seq<Event>, e: Event)
    ensures Signals(t + [e]) == Signals(t) + (if e.Sent? then [e.signal] else [])
  {
    assert (t + [e])[..|t|] == t;
  }

  lemma EvidenceOn(t: seq<Event>, e: Event)
    requires Evidenced(t)
    requires e.Sent? ==> |t| >= 2 && t[|t| - 1] == SawMembers(Some(true)) && Accepted(t[|t| - 2])
    ensures Evidenced(t + [e])
  {
    var u := t + [e];
    forall j | 0 <= j < |u| && u[j].Sent?
      ensures 2 <= j && u[j - 1] == SawMembers(Some(true)) && Accepted(u[j - 2])
    {
      if j < |t| {
        assert t[j].Sent?;
      }
    }
  }

  /** A signal keeps the discipline right after its evidence. */
  lemma SignalOn(t: seq<Event>, s: Signal)
    requires Disciplined(t) && NoMismatch(t) && |t| >= 2
    requires t[|t| - 1] == SawMembers(Some(true)) && Accepted(t[|t| - 2])
    requires Escalation(Signals(t) + [s])
    ensures Disciplined(t + [Sent(s)]) && NoMismatch(t + [Sent(s)])
    ensures Signals(t + [Sent(s)]) == Signals(t) + [s]
  {
    SignalsOn(t, Sent(s));
    EvidenceOn(t, Sent(s));
  }

  /** Disciplined so far, without a mismatch, with these signals sent. */
  ghost predicate Calm(t: seq<Event>, sent: seq<Signal>) {
    Disciplined(t) && NoMismatch(t) && Signals(t) == sent
  }

  lemma CalmOn(t: seq<Event>, e: Event, sent: seq<Signal>)
    requires Calm(t, sent) && !e.Sent? && !Mismatch(e)
    ensures Calm(t + [e], sent)
  {
    LookOn(t, e);
  }

  /** The run ends with a signal that found no group, or with a scan that found no member after a signal or a
      check that found the leader gone. */
  predicate EndsSafely(t: seq<Event>) {
    && t != []
    && (t[|t| - 1].Sent?
        || (t[|t| - 1] == SawMembers(Some(false))
            && (Signals(t) != [] || (|t| >= 2 && t[|t| - 2] == SawState(Absent)))))
  }

  /** What every method of the guardian promises about the host it leaves behind. A safe status is exactly what a
      safe end gives. */
  ghost predicate Concluded(t: seq<Event>, live: bool, o: Outcome) {
    && Disciplined(t)
    && (SafeStatus(o.status) ==> !live)
    && (o.terminated ==> !live && Signals(t) != [] && SafeStatus(o.status))
    && (o.status == TargetIdentityMismatch <==> !NoMismatch(t))
    && (SafeStatus(o.status) <==> EndsSafely(t))
  }

  lemma ConcludedWithMismatch(t: seq<Event>, live: bool)
    requires Disciplined(t) && t != [] && Mismatch(t[|t| - 1])
    ensures Concluded(t, live, Outcome(TargetIdentityMismatch, false))
  {
  }

  /** The last thing done while waiting. */
  predicate EndsScan(e: Event, members: Option<bool>) {
    if members == Some(true) then e == Paused else e == SawMembers(members)
  }

  /** One scan, and a pause if the group still has members. */
  method ScanOnce(h: Host, ghost sent: seq<Signal>) returns (members: Option<bool>)
    requires Calm(h.trace, sent)
    modifies h
    ensures (h.live ==> old(h.live)) && h.clock >= old(h.clock)
    ensures Calm(h.trace, sent)
    ensures members == Some(false) ==> !h.live
    ensures h.trace == old(h.trace) + [SawMembers(members)] + (if members == Some(true) then [Paused] else [])
  {
    members := h.ScanMembers();
    CalmOn(old(h.trace), SawMembers(members), sent);
    if members == Some(true) {
      ghost var middle := h.trace;
      h.Sleep(250);
      CalmOn(middle, Paused, sent);
    }
  }

  /** Waits for the group to empty: at most `rounds` scans, a pause after each. */
  method AwaitEmpty(h: Host, rounds: nat, ghost sent: seq<Signal>) returns (members: Option<bool>)
    requires Calm(h.trace, sent)
    modifies h
    ensures (h.live ==> old(h.live)) && h.clock >= old(h.clock)
    ensures Calm(h.trace, sent)
    ensures members == Some(false) ==> !h.live
    ensures |h.trace| <= |old(h.trace)| + 2 * rounds
    ensures old(h.trace) <= h.trace
    ensures rounds > 0 ==> |h.trace| > |old(h.trace)| && EndsScan(h.trace[|h.trace| - 1], members)
  {
    members := Some(true);
    for i := 0 to rounds
      invariant Calm(h.trace, sent)
      invariant |h.trace| <= |old(h.trace)| + 2 * i && old(h.trace) <= h.trace
      invariant members == Some(true) && (h.live ==> old(h.live)) && h.clock >= old(h.clock)
      invariant i > 0 ==> |h.trace| > |old(h.trace)| && h.trace[|h.trace| - 1] == Paused
    {
      members := ScanOnce(h, sent);
      if members != Some(true) {
        return;
      }
    }
  }

  /** One moment has passed. */
  predicate AfterOne(script: seq<Moment>, clock: nat, live: bool, after: nat, liveAfter: bool) {
    after == clock + Head(script).elapsed && liveAfter == (live && !Head(script).leave)
  }

  /** The first half of an inspection. */
  method CheckLeader(h: Host, t: Target, ghost sent: seq<Signal>) returns (state: State)
    requires Calm(h.trace, sent)
    modifies h
    ensures (h.live ==> old(h.live)) && h.clock >= old(h.clock)
    ensures h.trace == old(h.trace) + [SawState(state)] && state == t.OwnedState(Observed(old(h.script)))
    ensures state == IdentityMismatch ==> Disciplined(h.trace)
    ensures state != IdentityMismatch ==> Calm(h.trace, sent)
    ensures AfterOne(old(h.script), old(h.clock), old(h.live), h.clock, h.live)
  {
    state := h.ReadState(t, false);
    LookOn(old(h.trace), SawState(state));
  }

  /** The state check and the scan in this order, on which every decision to signal rests. */
  method Inspect(h: Host, t: Target, ghost sent: seq<Signal>) returns (state: State, members: Option<bool>)
    requires Calm(h.trace, sent)
    modifies h
    ensures (h.live ==> old(h.live)) && h.clock >= old(h.clock)
    ensures state == t.OwnedState(Observed(old(h.script)))
    ensures (h.trace == old(h.trace) + [SawState(state)]
                        + (if state == IdentityMismatch then [] else [SawMembers(members)]))
    ensures state == IdentityMismatch ==> Disciplined(h.trace)
    ensures state != IdentityMismatch ==> Calm(h.trace, sent) && (members.Some? ==> members.value == h.live)
    ensures state == IdentityMismatch ==> AfterOne(old(h.script), old(h.clock), old(h.live), h.clock, h.live)
  {
    members := None;
    state := CheckLeader(h, t, sent);
    if state == IdentityMismatch {
      return;
    }
    ghost var middle := h.trace;
    members := h.ScanMembers();
    CalmOn(middle, SawMembers(members), sent);
  }

  /** One signal and the scans after it. */
  method SignalAndAwait(h: Host, s: Signal, rounds: nat, ghost sent: seq<Signal>)
    returns (found: bool, members: Option<bool>)
    requires Calm(h.trace, sent) && Escalation(sent + [s]) && rounds > 0
    requires |h.trace| >= 2 && h.trace[|h.trace| - 1] == SawMembers(Some(true)) && Accepted(h.trace[|h.trace| - 2])
    modifies h
    ensures (h.live ==> old(h.live)) && h.clock >= old(h.clock)
    ensures Calm(h.trace, sent + [s])
    ensures !found ==> !h.live
    ensures found && members == Some(false) ==> !h.live
    ensures |h.trace| <= |old(h.trace)| + 1 + 2 * rounds
    ensures old(h.trace) <= h.trace && h.trace != []
    ensures if found then EndsScan(h.trace[|h.trace| - 1], members) else h.trace[|h.trace| - 1].Sent?
  {
    SignalOn(h.trace, s);
    members := Some(true);
    found := h.KillGroup(s);
    if found {
      members := AwaitEmpty(h, rounds, sent + [s]);
    }
  }

  /** The second half of a stop (lines 361-379): SIGKILL, after fresh evidence. */
  method EscalateToKill(h: Host, t: Target) returns (o: Outcome)
    requires Calm(h.trace, [Term])
    modifies h
    ensures Concluded(h.trace, h.live, o) && (h.live ==> old(h.live))
    ensures |h.trace| <= |old(h.trace)| + 19
    ensures old(h.trace) <= h.trace && h.clock >= old(h.clock)
  {
    var state, members := Inspect(h, t, [Term]);
    if state == IdentityMismatch {
      ConcludedWithMismatch(h.trace, h.live);
      return Outcome(TargetIdentityMismatch, false);
    }
    if members == None {
      return Outcome(InspectionUnavailable, false);
    }
    if members == Some(false) {
      return Outcome(Terminated, true);
    }
    assert [Term] + [Kill] == [Term, Kill];
    var found;
    found, members := SignalAndAwait(h, Kill, 8, [Term]);
    if !found {
      return Outcome(TargetAbsent, true);
    }
    if members == None {
      return Outcome(InspectionUnavailable, false);
    }
    if members == Some(false) {
      return Outcome(Killed, true);
    }
    o := Outcome(TerminationTimeout, false);
  }

  /** The first half of a stop (lines 347-360): SIGTERM, after the look that found the group alive. */
  method TerminateGroup(h: Host, t: Target) returns (o: Outcome)
    requires Calm(h.trace, []) && |h.trace| >= 2
    requires h.trace[|h.trace| - 1] == SawMembers(Some(true)) && Accepted(h.trace[|h.trace| - 2])
    modifies h
    ensures Concluded(h.trace, h.live, o) && (h.live ==> old(h.live))
    ensures |h.trace| <= |old(h.trace)| + 60
    ensures old(h.trace) <= h.trace && h.clock >= old(h.clock)
  {
    if !h.canSignal {
      return Outcome(ControlUnavailable, false);
    }
    assert [] + [Term] == [Term];
    var found, members := SignalAndAwait(h, Term, 20, []);
    if !found {
      return Outcome(TargetAbsent, false);
    }
    if members == None {
      return Outcome(InspectionUnavailable, false);
    }
    if members == Some(false) {
      return Outcome(Terminated, true);
    }
    o := EscalateToKill(h, t);
  }

  /** `stop_owned_quickstart_group` and `stop_owned_core_group`. */
  method StopOwnedGroup(h: Host, t: Target) returns (o: Outcome)
    requires Calm(h.trace, [])
    modifies h
    ensures Concluded(h.trace, h.live, o) && (h.live ==> old(h.live))
    ensures |h.trace| <= |old(h.trace)| + 62
    ensures old(h.trace) <= h.trace && h.clock >= old(h.clock)
    ensures (t.OwnedState(Observed(old(h.script))) == IdentityMismatch ==>
               o.status == TargetIdentityMismatch
               && AfterOne(old(h.script), old(h.clock), old(h.live), h.clock, h.live))
  {
    var state, members := Inspect(h, t, []);
    if state == IdentityMismatch {
      ConcludedWithMismatch(h.trace, h.live);
      return Outcome(TargetIdentityMismatch, false);
    }
    if members == None {
      return Outcome(InspectionUnavailable, false);
    }
    if members == Some(false) {
      return Outcome(if state == Absent then TargetAbsent else MembershipInconsistent, false);
    }
    o := TerminateGroup(h, t);
  }

  function Min(a: int, b: int): int {
    if a < b then a else b
  }

  function Max(a: int, b: int): int {
    if a < b then b else a
  }

  /** Nothing signalled yet; `mismatch` tells whether the identity was ever in doubt. */
  ghost predicate Watching(t: seq<Event>, mismatch: bool) {
    Disciplined(t) && Signals(t) == [] && (mismatch <==> !NoMismatch(t))
  }

  /** A look that ends the watch: the leader is gone and the scan of its group was available. */
  predicate EndingLook(t: seq<Event>, k: int) {
    0 <= k && k + 1 < |t| && t[k] == SawState(Absent) && t[k + 1].SawMembers? && t[k + 1].members.Some?
  }

  predicate NoEndingLook(t: seq<Event>) {
    forall k | 0 <= k < |t| :: !EndingLook(t, k)
  }

  /** Only a scan can make a look an ending one. */
  lemma OtherEvent(t: seq<Event>, e: Event)
    requires NoEndingLook(t) && !(e.SawMembers? && e.members.Some?)
    ensures NoEndingLook(t + [e])
  {
    forall k | 0 <= k < |t + [e]|
      ensures !EndingLook(t + [e], k)
    {
      assert !EndingLook(t, k);
    }
  }

  /** One look of the watch loop (lines 444-451): the members are scanned only when the leader is gone. */
  method LookAtTarget(h: Host, t: Target) returns (state: State, members: Option<bool>)
    requires Watching(h.trace, false) && NoEndingLook(h.trace)
    modifies h
    ensures (h.live ==> old(h.live)) && h.clock >= old(h.clock)
    ensures Watching(h.trace, state == IdentityMismatch)
    ensures |h.trace| <= |old(h.trace)| + 2
    ensures old(h.trace) <= h.trace
    ensures state == Absent ==> (members.Some? ==> members.value == h.live)
    ensures (state == Absent && members.Some? ==>
               |h.trace| >= 2 && h.trace[|h.trace| - 2] == SawState(Absent)
                 && h.trace[|h.trace| - 1] == SawMembers(members))
    ensures !(state == Absent && members.Some?) ==> NoEndingLook(h.trace)
    ensures state == t.OwnedState(Observed(old(h.script)))
    ensures (state == Absent ==>
               && members == (if Head(Rest(old(h.script))).unreadable then None else Some(h.live))
               && h.script == Rest(Rest(old(h.script)))
               && h.clock == old(h.clock) + Head(old(h.script)).elapsed + Head(Rest(old(h.script))).elapsed
               && h.live == (old(h.live) && !Head(old(h.script)).leave && !Head(Rest(old(h.script))).leave))
  {
    members := None;
    ghost var before := h.trace;
    state := h.ReadState(t, false);
    LookOn(before, SawState(state));
    OtherEvent(before, SawState(state));
    assert h.trace[|before|] == SawState(state);
    assert Mismatch(h.trace[|before|]) <==> state == IdentityMismatch;
    if state == Absent {
      ghost var middle := h.trace;
      members := h.ScanMembers();
      LookOn(middle, SawMembers(members));
      if members.None? {
        OtherEvent(middle, SawMembers(members));
      }
    }
  }

  lemma PauseOn(t: seq<Event>, mismatch: bool)
    requires Watching(t, mismatch)
    ensures Watching(t + [Paused], mismatch)
  {
    LookOn(t, Paused);
    if mismatch {
      var i :| 0 <= i < |t| && Mismatch(t[i]);
      assert Mismatch((t + [Paused])[i]);
    }
  }

  /** The leader is gone while a member of its group lives on, and what comes to be read next in its place is not
      the leader: all before any time has passed. */
  predicate GoneAndReplaced(t: Target, s: seq<Moment>) {
    && |s| >= 3 && (forall i | 0 <= i < 3 :: !s[i].leave && s[i].elapsed == 0)
    && t.OwnedState(s[0].reading) == Absent && !s[1].unreadable && t.OwnedState(s[2].reading) == IdentityMismatch
  }

  /** The trace of the watch so far: it goes on, or its last look has ended it. */
  ghost predicate Watched(t: seq<Event>, mismatch: bool, ended: Option<bool>) {
    && Watching(t, mismatch)
    && (ended.None? ==> NoEndingLook(t) && (t == [] || t[|t| - 1] == Paused))
    && (ended.Some? ==> !mismatch && EndingLook(t, |t| - 2) && t[|t| - 1] == SawMembers(ended))
  }

  lemma PauseWatched(t: seq<Event>, mismatch: bool)
    requires Watching(t, mismatch) && NoEndingLook(t)
    ensures Watched(t + [Paused], mismatch, None)
  {
    PauseOn(t, mismatch);
    OtherEvent(t, Paused);
  }

  /** One turn of the loop: a look, and a pause unless the look ends the watch. */
  method WatchTurn(h: Host, t: Target, deadline: nat, doubted: bool)
    returns (ended: Option<bool>, mismatch: bool, unavailable: bool)
    requires Watched(h.trace, doubted, None) && h.clock < deadline
    modifies h
    ensures Watched(h.trace, mismatch, ended) && (doubted ==> mismatch)
    ensures (h.live ==> old(h.live)) && (ended.Some? ==> ended.value == h.live)
    ensures |h.trace| <= |old(h.trace)| + 3 && h.clock >= old(h.clock)
    ensures ended.None? ==> h.clock >= Min(deadline, old(h.clock) + 250)
    ensures (!doubted && old(GoneAndReplaced(t, h.script) && h.live) ==>
               ended == Some(true) && h.live && h.clock == old(h.clock) && h.script == old(h.script)[2..])
  {
    ended, mismatch, unavailable := None, doubted, false;
    if !doubted {
      var state, members := LookAtTarget(h, t);
      mismatch := state == IdentityMismatch;
      if state == Absent {
        ended, unavailable := members, members == None;
        if ended.Some? {
          return;
        }
      }
    }
    PauseWatched(h.trace, mismatch);
    h.Sleep(Min(250, Max(0, deadline - h.clock)));
  }

  /** The loop of the watch: looks and pauses until the deadline, or until a look ends it with what its scan saw. */
  method Watch(h: Host, t: Target, deadline: nat, watchdogSeconds: nat)
    returns (ended: Option<bool>, mismatch: bool, unavailable: bool, ghost began: nat)
    requires h.trace == [] && deadline == h.clock + 1000 * watchdogSeconds
    modifies h
    ensures Watched(h.trace, mismatch, ended)
    ensures (h.live ==> old(h.live)) && (ended.Some? ==> ended.value == h.live)
    ensures |h.trace| <= 12 * watchdogSeconds + 3 && h.clock >= old(h.clock)
    ensures if ended.None? then h.clock >= deadline else began < deadline
    ensures (old(GoneAndReplaced(t, h.script) && h.live) && watchdogSeconds > 0 ==>
               ended == Some(true) && h.live && h.clock == old(h.clock) && h.script == old(h.script)[2..])
  {
    ended, mismatch, unavailable, began := None, false, false, h.clock;
    ghost var rounds: nat := 0;
    while h.clock < deadline
      invariant Watched(h.trace, mismatch, None) && (h.live ==> old(h.live)) && ended.None?
      invariant |h.trace| <= 3 * rounds && rounds <= 4 * watchdogSeconds
      invariant h.clock >= Min(deadline, old(h.clock) + 250 * rounds) && h.clock >= old(h.clock)
      invariant rounds == 0 ==>
                  !mismatch && h.script == old(h.script) && h.live == old(h.live) && h.clock == old(h.clock)
      invariant old(GoneAndReplaced(t, h.script) && h.live) ==> rounds == 0
      decreases deadline - h.clock
    {
      rounds, began := rounds + 1, h.clock;
      var unseen;
      ended, mismatch, unseen := WatchTurn(h, t, deadline, mismatch);
      unavailable := unavailable || unseen;
      if ended.Some? {
        return;
      }
    }
  }

  /** `_watch_owned_group`. It ends, because every pause takes time; whatever the host does, it signals on evidence
      and never after a mismatch. It leaves the watch before the deadline, with a look it `began` in time, exactly
      when a look of the watch, which is the trace up to `looks`, found the leader gone and could scan its group.
      The status is then safe exactly when the trace ends safely: at once when the group is empty, otherwise as the
      stop finds it. */
  method WatchOwnedGroup(h: Host, t: Target, watchdogSeconds: nat)
    returns (o: Outcome, ghost early: bool, ghost looks: nat, ghost began: nat)
    requires h.trace == []
    modifies h
    ensures Concluded(h.trace, h.live, o) && (h.live ==> old(h.live))
    ensures |h.trace| <= 12 * watchdogSeconds + 65
    ensures looks <= |h.trace| && (early <==> !NoEndingLook(h.trace[..looks]))
    ensures if early then began < old(h.clock) + 1000 * watchdogSeconds
            else h.clock >= old(h.clock) + 1000 * watchdogSeconds
    ensures early ==> looks >= 2 && EndingLook(h.trace, looks - 2)
    ensures (early && h.trace[looks - 1] == SawMembers(Some(false)) ==>
               o.status == TargetExitedBeforeDeadline && looks == |h.trace|)
    ensures (old(GoneAndReplaced(t, h.script) && h.live) && watchdogSeconds > 0 ==>
               early && o.status == TargetIdentityMismatch && h.live && h.clock == old(h.clock))
  {
    var ended, mismatch, unavailable;
    ended, mismatch, unavailable, began := Watch(h, t, h.clock + 1000 * watchdogSeconds, watchdogSeconds);
    early, looks := ended.Some?, |h.trace|;
    ghost var watched := h.trace;
    assert watched[..looks] == watched;
    assert early ==> EndingLook(watched, looks - 2);
    if ended == Some(false) {
      return Outcome(TargetExitedBeforeDeadline, false), early, looks, began;
    }
    if ended == None && mismatch {
      return Outcome(TargetIdentityMismatch, false), early, looks, began;
    }
    if ended == None && unavailable {
      return Outcome(InspectionUnavailable, false), early, looks, began;
    }
    o := StopOwnedGroup(h, t);
    assert h.trace[..looks] == watched;
  }

  /** The early end can be unsafe: a leader that exits while its group lives on, and whose entry cannot be read at the
      next check, ends the guardian at once, with the group alive and the deadline ahead. */
  method EarlyUnsafeEnd(t: Target, watchdogSeconds: nat) returns (h: Host, o: Outcome)
    requires t.pid > 1 && t.ticks > 0 && watchdogSeconds > 0
    ensures o.status == TargetIdentityMismatch && !SafeStatus(o.status)
    ensures h.live && h.clock == 0
  {
    var gone, scan := Moment(false, Missing, false, false, 0), Moment(false, Missing, false, false, 0);
    h := new Host(0, true, [gone, scan, Moment(false, Unreadable, false, false, 0)], true);
    ghost var early, looks, began;
    o, early, looks, began := WatchOwnedGroup(h, t, watchdogSeconds);
  }

  // ----- A start that failed -----

  /** Every signal follows directly on a check that found the very process that was started. */
  predicate Authenticated(t: seq<Event>) {
    forall j | 0 <= j < |t| && t[j].Sent? :: 1 <= j && t[j - 1] == SawState(Live)
  }

  /** `_stop_failed_start`; `first` and `second` are whether the two waits saw the process exit. */
  method StopFailedStart(h: Host, t: Target, first: bool, second: bool) returns (o: Outcome)
    requires h.trace == []
    modifies h
    ensures Authenticated(h.trace) && (h.live ==> old(h.live))
    ensures o.terminated <==> o.status == Terminated || o.status == Killed
    ensures o.terminated ==> first || second
    ensures t.pid <= 1 || t.ticks <= 0 ==> h.trace == [SawState(IdentityUnavailable)]
  {
    var state := h.ReadState(t, true);
    if state != Live {
      return Outcome(NotLive(state), false);
    }
    if !h.canSignal {
      return Outcome(ControlUnavailable, false);
    }
    var found := h.KillGroup(Term);
    if !found {
      return Outcome(TargetAbsent, false);
    }
    if first {
      return Outcome(Terminated, true);
    }
    state := h.ReadState(t, true);
    if state != Live {
      return Outcome(NotLive(state), false);
    }
    found := h.KillGroup(Kill);
    if !found {
      return Outcome(TargetAbsent, false);
    }
    o := if second then Outcome(Killed, true) else Outcome(TerminationTimeout, false);
  }

  function NotLive(s: State): Status {
    match s
    case Absent => TargetAbsent
    case IdentityUnavailable => TargetIdentityUnavailable
    case _ => TargetIdentityMismatch
  }
}
