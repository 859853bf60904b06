/** The hand-off of the shared-host lock: a launcher acquires it and passes the descriptor to a supervisor,
    which passes it to a guardian before it starts any work. Many launches interleave freely, every process
    may die at any step, and a lock is held as long as some process has the open file description open. */
module LockHandoff {
  import opened Wrappers
  import Guardian

  datatype Role = Launcher | Supervisor | Guard

  datatype LauncherPc = Preflight | Spawned | Released | LauncherDead

  /** `Failing` is the path on which the start of the child failed. */
  datatype SupervisorPc = Unborn | Booting | Guarded | Working | Failing | Closed | SupervisorDead

  datatype GuardPc = NotStarted | Watching | Ended(status: Guardian.Status) | Crashed | Stopped

  /** One launch. `holders` are the processes that have its open file description open, `workload` whether
      its process group has a live member besides the supervisor. */
  datatype Launch = Launch(launcher: LauncherPc, supervisor: SupervisorPc, guard: GuardPc, holders: set<Role>,
                           workload: bool)
  {
    predicate Locked() {
      holders != {}
    }

    predicate SupervisorAlive() {
      !supervisor.Unborn? && !supervisor.SupervisorDead?
    }

    /** The owned process group has a live member. */
    predicate GroupLive() {
      workload || SupervisorAlive()
    }

    /** The guardian crashed, or gave up with a status that is not safe. */
    predicate GuardFailed() {
      guard.Crashed? || (guard.Ended? && !Guardian.SafeStatus(guard.status))
    }
  }

  type Host = seq<Launch>

  datatype Step =
    | Acquire
    | Spawn(i: nat)
    | LauncherClose(i: nat)
    | LauncherDies(i: nat)
    | StartGuard(i: nat)
    | StartWork(i: nat)
    | StartFails(i: nat, killed: bool)
    | SupervisorClose(i: nat)
    | SupervisorDies(i: nat)
    | WorkEnds(i: nat)
    | GuardEnds(i: nat, status: Guardian.Status)
    | GuardCrashes(i: nat)

  /** `flock(LOCK_EX | LOCK_NB)` on a freshly opened description succeeds. */
  predicate CanAcquire(h: Host) {
    forall i | 0 <= i < |h| :: !h[i].Locked()
  }

  function Fresh(): Launch {
    Launch(Preflight, Unborn, NotStarted, {Launcher}, false)
  }

  /** What a step does to its launch, when the program or the system can take it. */
  function Taken(l: Launch, step: Step): Option<Launch> {
    match step
    case Acquire => None
    case Spawn(_) =>
      if l.launcher.Preflight?
        then Some(l.(launcher := Spawned, supervisor := Booting, holders := l.holders + {Supervisor}))
      else None
    case LauncherClose(_) =>
      if l.launcher.Preflight? || l.launcher.Spawned?
        then Some(l.(launcher := Released, holders := l.holders - {Launcher}))
      else None
    case LauncherDies(_) => Some(l.(launcher := LauncherDead, holders := l.holders - {Launcher}))
    case StartGuard(_) =>
      if l.supervisor.Booting? then Some(l.(supervisor := Guarded, guard := Watching, holders := l.holders + {Guard}))
      else None
    case StartWork(_) =>
      if l.supervisor.Guarded? || l.supervisor.Working? then Some(l.(supervisor := Working, workload := true)) else None
    case StartFails(_, killed) =>
      if l.supervisor.Guarded? then Some(StopGuard(l.(supervisor := Failing), killed)) else None
    case SupervisorClose(_) =>
      if l.supervisor.Booting? || l.supervisor.Working? || l.supervisor.Failing?
      then Some(l.(supervisor := Closed, holders := l.holders - {Supervisor})) else None
    case SupervisorDies(_) =>
      if l.SupervisorAlive() then Some(l.(supervisor := SupervisorDead, holders := l.holders - {Supervisor})) else None
    case WorkEnds(_) => Some(l.(workload := false))
    case GuardEnds(_, status) =>
      if l.guard.Watching? && (Guardian.SafeStatus(status) ==> !l.GroupLive())
      then Some(l.(guard := Ended(status), holders := l.holders - {Guard})) else None
    case GuardCrashes(_) =>
      if l.guard.Watching? then Some(l.(guard := Crashed, holders := l.holders - {Guard})) else None
  }

  /** `_stop_failed_start` on the guardian, which may or may not bring it down. */
  function StopGuard(l: Launch, killed: bool): Launch {
    if killed && l.guard.Watching? then l.(guard := Stopped, holders := l.holders - {Guard}) else l
  }

  function Next(h: Host, step: Step): Option<Host> {
    if step.Acquire? then (if CanAcquire(h) then Some(h + [Fresh()]) else None)
    else if step.i >= |h| then None
    else match Taken(h[step.i], step)
         case None => None
         case Some(l) => Some(h[step.i := l])
  }

  /** The host after a run, when every step could be taken. */
  function Exec(steps: seq<Step>): Option<Host> {
    if steps == [] then Some([])
    else match Exec(steps[..|steps| - 1])
         case None => None
         case Some(h) => Next(h, steps[|steps| - 1])
  }

  // ----- What every launch keeps -----

  /** Who has the description open follows from where each process is. */
  predicate HoldersMatch(l: Launch) {
    && (Launcher in l.holders <==> l.launcher.Preflight? || l.launcher.Spawned?)
    && (Supervisor in l.holders <==> l.supervisor.Booting? || l.supervisor.Guarded? || l.supervisor.Working?
                                     || l.supervisor.Failing?)
    && (Guard in l.holders <==> l.guard.Watching?)
  }

  /** Nothing works before a guardian was started, and a guardian that was stopped never saw any work. */
  predicate PhasesMatch(l: Launch) {
    && (l.launcher.Preflight? ==> l.supervisor.Unborn?)
    && (l.supervisor.Unborn? || l.supervisor.Booting? ==> l.guard.NotStarted? && !l.workload)
    && (l.supervisor.Guarded? || l.supervisor.Working? || l.supervisor.Failing? ==> !l.guard.NotStarted?)
    && (l.workload ==> !l.guard.NotStarted? && !l.guard.Stopped?)
    && (l.supervisor.Guarded? || l.supervisor.Failing? ==> !l.workload)
    && (l.guard.Stopped? ==> l.supervisor.Failing? || l.supervisor.Closed? || l.supervisor.SupervisorDead?)
    && (l.guard.Ended? && Guardian.SafeStatus(l.guard.status) ==> !l.GroupLive())
  }

  predicate LaunchInv(l: Launch) {
    HoldersMatch(l) && PhasesMatch(l)
  }

  predicate Inv(h: Host) {
    && (forall i | 0 <= i < |h| :: LaunchInv(h[i]))
    && (forall i, j | 0 <= i < j < |h| :: !(h[i].Locked() && h[j].Locked()))
  }

  lemma TakenKeeps(l: Launch, step: Step)
    requires LaunchInv(l) && Taken(l, step).Some?
    ensures LaunchInv(Taken(l, step).value)
    ensures Taken(l, step).value.Locked() ==> l.Locked()
  {
    if !l.Locked() {
      assert Launcher !in l.holders && Supervisor !in l.holders;
      assert Taken(l, step).value.holders == {};
    }
  }

  lemma NextKeeps(h: Host, step: Step)
    requires Inv(h) && Next(h, step).Some?
    ensures Inv(Next(h, step).value)
  {
    if !step.Acquire? {
      TakenKeeps(h[step.i], step);
    }
  }

  lemma {:induction false} RunsKeepInv(steps: seq<Step>)
    requires Exec(steps).Some?
    ensures Inv(Exec(steps).value)
  {
    if steps != [] {
      RunsKeepInv(steps[..|steps| - 1]);
      NextKeeps(Exec(steps[..|steps| - 1]).value, steps[|steps| - 1]);
    }
  }

  // ----- The promises -----

  /** Over all runs: as long as a launch has live work and its guardian has not failed, the guardian holds
      the lock and nobody else can acquire it. */
  lemma LockExclusive(steps: seq<Step>, i: nat)
    requires Exec(steps).Some? && i < |Exec(steps).value|
    requires Exec(steps).value[i].workload && !Exec(steps).value[i].GuardFailed()
    ensures Guard in Exec(steps).value[i].holders && Exec(steps).value[i].guard.Watching?
    ensures !CanAcquire(Exec(steps).value)
  {
    RunsKeepInv(steps);
    var h := Exec(steps).value;
    assert LaunchInv(h[i]);
    assert h[i].Locked();
  }

  /** Two launches never have live work at the same time, unless a guardian failed. */
  lemma OneWorkload(steps: seq<Step>, i: nat, j: nat)
    requires Exec(steps).Some? && i < j < |Exec(steps).value|
    requires Exec(steps).value[i].workload && Exec(steps).value[j].workload
    ensures Exec(steps).value[i].GuardFailed() || Exec(steps).value[j].GuardFailed()
  {
    RunsKeepInv(steps);
    var h := Exec(steps).value;
    assert LaunchInv(h[i]) && LaunchInv(h[j]);
    if !h[i].GuardFailed() && !h[j].GuardFailed() {
      assert h[i].Locked() && h[j].Locked();
      assert false;
    }
  }

  /** No work starts before a guardian has started, with the lock in its hands. */
  lemma WorkNeedsGuard(steps: seq<Step>, i: nat)
    requires Exec(steps).Some? && Exec(steps + [StartWork(i)]).Some?
    ensures i < |Exec(steps).value| && !Exec(steps).value[i].guard.NotStarted? && !Exec(steps).value[i].guard.Stopped?
    ensures Guard in Exec(steps).value[i].holders || Exec(steps).value[i].GuardFailed()
  {
    RunsKeepInv(steps);
    assert (steps + [StartWork(i)])[..|steps|] == steps;
    var h := Exec(steps).value;
    assert LaunchInv(h[i]);
    if h[i].guard.Ended? {
      assert h[i].SupervisorAlive();
    }
  }

  /** A launch whose lock is free has no work and, unless its guardian failed, is over for good. */
  predicate Over(l: Launch) {
    !l.Locked() && !l.workload && !l.GuardFailed()
  }

  lemma OverStays(h: Host, step: Step, i: nat)
    requires Inv(h) && i < |h| && Over(h[i]) && Next(h, step).Some?
    ensures i < |Next(h, step).value| && Over(Next(h, step).value[i])
  {
    assert LaunchInv(h[i]);
    if !step.Acquire? && step.i == i {
      TakenKeeps(h[i], step);
      assert Launcher !in h[i].holders && Supervisor !in h[i].holders && Guard !in h[i].holders;
    }
  }

  lemma {:induction false} ExecPrefix(steps: seq<Step>, more: seq<Step>)
    requires Exec(steps + more).Some?
    ensures Exec(steps).Some?
  {
    if more == [] {
      assert steps + more == steps;
    } else {
      assert (steps + more)[..|steps + more| - 1] == steps + more[..|more| - 1];
      ExecPrefix(steps, more[..|more| - 1]);
    }
  }

  /** When somebody acquires the lock, every earlier launch is over: whatever happens afterwards, it never
      has live work again, unless its guardian had failed by then. */
  lemma {:induction false} AcquiredMeansOver(steps: seq<Step>, more: seq<Step>, i: nat)
    requires Exec(steps).Some? && CanAcquire(Exec(steps).value)
    requires i < |Exec(steps).value| && !Exec(steps).value[i].GuardFailed()
    requires Exec(steps + more).Some?
    ensures i < |Exec(steps + more).value| && Over(Exec(steps + more).value[i])
  {
    RunsKeepInv(steps);
    var h := Exec(steps).value;
    if more == [] {
      assert steps + more == steps;
      assert LaunchInv(h[i]) && !h[i].Locked();
    } else {
      var front := more[..|more| - 1];
      assert (steps + more)[..|steps + more| - 1] == steps + front;
      ExecPrefix(steps + front, [more[|more| - 1]]);
      assert steps + front + [more[|more| - 1]] == steps + more;
      AcquiredMeansOver(steps, front, i);
      RunsKeepInv(steps + front);
      OverStays(Exec(steps + front).value, more[|more| - 1], i);
    }
  }

  /** The condition is needed: with a crashed guardian, an orphaned workload and a new launch coexist. */
  lemma CrashedGuardianLosesTheLock() returns (steps: seq<Step>)
    ensures Exec(steps).Some? && |Exec(steps).value| == 2
    ensures Exec(steps).value[0].workload && Exec(steps).value[0].guard.Crashed?
    ensures Launcher in Exec(steps).value[1].holders
  {
    var a := [Acquire];
    assert [] + [Acquire] == a;
    StepOn([], Acquire);
    var b := a + [Spawn(0)];
    StepOn(a, Spawn(0));
    var c := b + [StartGuard(0)];
    StepOn(b, StartGuard(0));
    var d := c + [StartWork(0)];
    StepOn(c, StartWork(0));
    var e := d + [LauncherClose(0)];
    StepOn(d, LauncherClose(0));
    var f := e + [SupervisorDies(0)];
    StepOn(e, SupervisorDies(0));
    var g := f + [GuardCrashes(0)];
    StepOn(f, GuardCrashes(0));
    assert {Launcher} + {Supervisor} + {Guard} - {Launcher} - {Supervisor} - {Guard} == {};
    steps := g + [Acquire];
    StepOn(g, Acquire);
  }

  lemma StepOn(steps: seq<Step>, step: Step)
    ensures Exec(steps + [step]) == if Exec(steps).Some? then Next(Exec(steps).value, step) else None
  {
    assert (steps + [step])[..|steps|] == steps;
  }
}
