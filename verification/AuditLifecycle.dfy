/**
 Startup and shutdown guards of the async audit pipeline
 (src/baldur/audit/async_audit_lifecycle.py) over a tree of forked processes.

 Startup and shutdown hold two different locks, so they interleave inside a process;
 startup writes its flags one at a time, so a fork may copy them half written. A fork
 child receives both locks free. The pipeline work itself is one yes-or-no outcome.
 */
module AuditLifecycle {
  import opened Wrappers

  type Pid = nat

  datatype Flags = Flags(startupCompleted: bool, shutdownDone: bool, originPid: Option<Pid>)

  const COLD_FLAGS := Flags(false, false, None)

  /** The process has already started its own pipeline. */
  predicate AlreadyStarted(f: Flags, pid: Pid) {
    f.startupCompleted && f.originPid == Some(pid)
  }

  // ---------------------------------------------------------------------------
  // One process, undisturbed
  // ---------------------------------------------------------------------------

  /** The flags after a startup call that nothing interrupts. */
  function AfterStartup(f: Flags, pid: Pid, loggerStarted: bool): Flags {
    if AlreadyStarted(f, pid) then f
    else
      var g := if f.startupCompleted then f.(startupCompleted := false, shutdownDone := false) else f;
      if loggerStarted then g.(startupCompleted := true, originPid := Some(pid)) else g
  }

  class AuditLifecycleState {
    var flags: Flags

    constructor ()
      ensures flags == COLD_FLAGS
    {
      flags := COLD_FLAGS;
    }

    method Startup(pid: Pid, loggerStarted: bool) returns (started: bool)
      modifies this
      ensures flags == AfterStartup(old(flags), pid, loggerStarted)
      ensures started <==> !(old(flags).startupCompleted && old(flags).originPid == Some(pid)) && loggerStarted
      ensures started ==> flags.startupCompleted && flags.originPid == Some(pid)
      ensures !started && old(flags).originPid != Some(pid) ==> !flags.startupCompleted
      ensures flags.shutdownDone <==>
              old(flags).shutdownDone && (!old(flags).startupCompleted || old(flags).originPid == Some(pid))
    {
      if flags.startupCompleted {
        if flags.originPid == Some(pid) {
          return false;
        }
        flags := flags.(startupCompleted := false);
        flags := flags.(shutdownDone := false);
      }
      if !loggerStarted {
        return false;
      }
      flags := flags.(startupCompleted := true);
      flags := flags.(originPid := Some(pid));
      return true;
    }

    /** Whether the teardown body ran; test mode skips it without touching the flags. */
    method GracefulShutdown(testMode: bool) returns (ran: bool)
      modifies this
      ensures ran <==> !testMode && !old(flags).shutdownDone
      ensures flags == if ran then old(flags).(shutdownDone := true) else old(flags)
    {
      if testMode {
        return false;
      }
      if flags.shutdownDone {
        return false;
      }
      flags := flags.(shutdownDone := true);
      return true;
    }
  }

  // ---------------------------------------------------------------------------
  // The process tree
  // ---------------------------------------------------------------------------

  /** Where the thread that holds the startup lock is; `Free` when nobody holds it. */
  datatype Phase = Free | Discarding | Initializing | Committing

  /**
   A process: its copy of the flags, the two locks, and what it has done itself. `cleared`
   counts the resets of the shutdown flag and `bodiesSinceClear` the teardown bodies begun
   since the last one; `bodiesSinceStart` counts those begun since its own startup. `found`
   is what its last startup attempt found, and `bodiesSinceAttempt` counts the bodies begun
   since that attempt passed the guard or, when it discards the flags, cleared the flag.
   */
  datatype Process = Process(
    flags: Flags, phase: Phase, shuttingDown: bool, bornDone: bool,
    started: nat, discards: nat, cleared: nat,
    bodies: nat, bodiesSinceClear: nat, bodiesSinceStart: nat,
    found: Flags, bodiesSinceAttempt: nat)

  function Newborn(f: Flags): Process {
    Process(f, Free, false, f.shutdownDone, 0, 0, 0, 0, 0, 0, f, 0)
  }

  type Tree = map<Pid, Process>

  datatype Step =
    | BeginStartup(pid: Pid)
    | ClearShutdownFlag(pid: Pid)
    | FinishStartup(pid: Pid, loggerStarted: bool)
    | WriteOrigin(pid: Pid)
    | EnterShutdown(pid: Pid)
    | LeaveShutdown(pid: Pid)
    | Fork(pid: Pid, child: Pid)

  /** Take the startup lock and pass the guard, or return at once when already started. */
  function Begin(p: Process, pid: Pid): Process {
    if p.phase != Free || AlreadyStarted(p.flags, pid) then p
    else if p.flags.startupCompleted then
      p.(flags := p.flags.(startupCompleted := false), phase := Discarding, discards := p.discards + 1,
         found := p.flags, bodiesSinceAttempt := 0)
    else p.(phase := Initializing, found := p.flags, bodiesSinceAttempt := 0)
  }

  function Clear(p: Process): Process {
    if p.phase != Discarding then p
    else p.(flags := p.flags.(shutdownDone := false), phase := Initializing,
            cleared := p.cleared + 1, bodiesSinceClear := 0, bodiesSinceAttempt := 0)
  }

  /** The outcome of the initialisation: record completion, or leave the flags unset. */
  function Finish(p: Process, loggerStarted: bool): Process {
    if p.phase != Initializing then p
    else if loggerStarted then p.(flags := p.flags.(startupCompleted := true), phase := Committing)
    else p.(phase := Free)
  }

  /** The last write of a successful startup, which then returns True. */
  function Commit(p: Process, pid: Pid): Process {
    if p.phase != Committing then p
    else p.(flags := p.flags.(originPid := Some(pid)), phase := Free, started := p.started + 1, bodiesSinceStart := 0)
  }

  /** Take the shutdown lock; run the body unless it is recorded as done. */
  function Enter(p: Process): Process {
    if p.shuttingDown || p.flags.shutdownDone then p
    else p.(flags := p.flags.(shutdownDone := true), shuttingDown := true, bodies := p.bodies + 1,
            bodiesSinceClear := p.bodiesSinceClear + 1, bodiesSinceStart := p.bodiesSinceStart + 1,
            bodiesSinceAttempt := p.bodiesSinceAttempt + 1)
  }

  function NextProcess(p: Process, pid: Pid, step: Step): Process {
    match step
    case BeginStartup(_) => Begin(p, pid)
    case ClearShutdownFlag(_) => Clear(p)
    case FinishStartup(_, ok) => Finish(p, ok)
    case WriteOrigin(_) => Commit(p, pid)
    case EnterShutdown(_) => Enter(p)
    case LeaveShutdown(_) => p.(shuttingDown := false)
    case Fork(_, _) => p
  }

  /** One step of one process; a fork adds a process under a pid that was never used. */
  function Next(t: Tree, step: Step): Tree {
    if step.pid !in t then t
    else if step.Fork? then
      if step.child in t then t else t[step.child := Newborn(t[step.pid].flags)]
    else t[step.pid := NextProcess(t[step.pid], step.pid, step)]
  }

  function Run(t: Tree, steps: seq<Step>): Tree {
    if steps == [] then t else Next(Run(t, steps[..|steps| - 1]), steps[|steps| - 1])
  }

  function Cold(root: Pid): Tree {
    map[root := Newborn(COLD_FLAGS)]
  }

  /** The steps of a startup call that nothing interrupts leave the flags that the method leaves. */
  lemma UndisturbedStartup(p: Process, pid: Pid, loggerStarted: bool)
    requires p.phase == Free
    ensures var q := Commit(Finish(Clear(Begin(p, pid)), loggerStarted), pid);
            q.flags == AfterStartup(p.flags, pid, loggerStarted) && q.phase == Free
    ensures Begin(p, pid) != p ==> Commit(Finish(Clear(Begin(p, pid)), loggerStarted), pid).found == p.flags
  {
  }

  // ---------------------------------------------------------------------------
  // What every run keeps
  // ---------------------------------------------------------------------------

  function Bit(b: bool): nat {
    if b then 1 else 0
  }

  ghost predicate StartupInv(p: Process, pid: Pid, known: set<Pid>) {
    && p.started <= 1 && p.discards <= 1
    && (p.started == 1 <==> p.flags.originPid == Some(pid))
    && (p.started == 1 ==> p.flags.startupCompleted && p.phase == Free)
    && (p.phase in {Discarding, Initializing} ==> !p.flags.startupCompleted)
    && (p.phase == Committing ==> p.flags.startupCompleted)
    && (p.phase == Free && p.started == 0 && p.flags.startupCompleted ==> p.discards == 0)
    && (p.flags.originPid.Some? ==> p.flags.originPid.value in known)
  }

  ghost predicate ShutdownInv(p: Process) {
    && (p.flags.shutdownDone <==> p.bodiesSinceClear > 0 || (p.bornDone && p.cleared == 0))
    && p.bodiesSinceClear <= 1
    && p.bodies <= p.cleared + Bit(p.flags.shutdownDone)
    && p.cleared + Bit(p.phase == Discarding) == p.discards
    && (p.started == 1 ==> p.bodiesSinceStart <= Bit(p.flags.shutdownDone))
  }

  /** Flags whose shutdown guard a startup leaves raised: shut down, and nothing completed to discard. */
  predicate Stuck(f: Flags) {
    f.shutdownDone && !f.startupCompleted
  }

  ghost predicate AttemptInv(p: Process) {
    && (p.phase == Discarding ==> p.found.startupCompleted)
    && (p.phase in {Initializing, Committing} || p.started == 1 ==>
          (p.flags.shutdownDone <==> p.bodiesSinceAttempt > 0 || Stuck(p.found)))
  }

  ghost predicate ProcessInv(p: Process, pid: Pid, known: set<Pid>) {
    StartupInv(p, pid, known) && ShutdownInv(p) && AttemptInv(p)
  }

  ghost predicate Inv(t: Tree) {
    forall pid | pid in t :: ProcessInv(t[pid], pid, t.Keys)
  }

  lemma StartupKeeps(p: Process, pid: Pid, known: set<Pid>, step: Step)
    requires StartupInv(p, pid, known) && pid in known
    ensures StartupInv(NextProcess(p, pid, step), pid, known)
  {
  }

  lemma ShutdownKeeps(p: Process, pid: Pid, known: set<Pid>, step: Step)
    requires StartupInv(p, pid, known) && ShutdownInv(p)
    ensures ShutdownInv(NextProcess(p, pid, step))
  {
  }

  lemma AttemptKeeps(p: Process, pid: Pid, known: set<Pid>, step: Step)
    requires StartupInv(p, pid, known) && AttemptInv(p)
    ensures AttemptInv(NextProcess(p, pid, step))
  {
  }

  lemma ProcessKeepsInv(p: Process, pid: Pid, known: set<Pid>, step: Step)
    requires ProcessInv(p, pid, known) && pid in known
    ensures ProcessInv(NextProcess(p, pid, step), pid, known)
  {
    StartupKeeps(p, pid, known, step);
    ShutdownKeeps(p, pid, known, step);
    AttemptKeeps(p, pid, known, step);
  }

  lemma StepKeepsInv(t: Tree, step: Step)
    requires Inv(t)
    ensures Inv(Next(t, step))
  {
    if step.pid in t {
      var u := Next(t, step);
      ProcessKeepsInv(t[step.pid], step.pid, t.Keys, step);
      assert t.Keys <= u.Keys;
    }
  }

  /** Whether calling startup now would attempt to start the pipeline. */
  ghost predicate Retryable(p: Process, pid: Pid) {
    Begin(p, pid).phase != Free
  }

  /**
   In every run of the tree, for every process: its startup succeeds at most once and is
   attempted again exactly until it has; inherited flags are discarded at most once; the
   teardown body begins at most twice in all and at most once after its own startup.
   */
  lemma {:induction false} RunsKeepGuards(root: Pid, steps: seq<Step>)
    ensures var t := Run(Cold(root), steps);
            && Inv(t)
            && forall pid | pid in t ::
                 var p := t[pid];
                 && p.started <= 1 && p.discards <= 1 && p.bodies <= 2
                 && (p.started == 1 ==> p.bodiesSinceStart <= 1)
                 && (p.phase == Free ==> (Retryable(p, pid) <==> p.started == 0))
  {
    if steps != [] {
      RunsKeepGuards(root, steps[..|steps| - 1]);
      StepKeepsInv(Run(Cold(root), steps[..|steps| - 1]), steps[|steps| - 1]);
    }
  }

  /**
   When a teardown can still run: the guard is open unless a body has begun since the flag
   was last cleared, or the process was born with the flag raised and never cleared it.
   */
  lemma TeardownOpenIff(root: Pid, steps: seq<Step>, pid: Pid)
    requires pid in Run(Cold(root), steps)
    ensures var p := Run(Cold(root), steps)[pid];
            !p.flags.shutdownDone <==> p.bodiesSinceClear == 0 && !(p.bornDone && p.cleared == 0)
  {
    RunsKeepGuards(root, steps);
  }

  /** A startup attempt that has not ended remembers the flags that stood when it passed the guard. */
  lemma {:induction false} FoundIsAtBegin(t: Tree, pid: Pid, during: seq<Step>)
    requires Inv(t) && pid in t && Retryable(t[pid], pid) && t[pid].phase == Free
    requires forall k | 0 <= k < |during| ::
               var u := Run(Next(t, BeginStartup(pid)), during[..k]); pid in u && u[pid].phase != Free
    ensures var u := Run(Next(t, BeginStartup(pid)), during); pid in u && u[pid].found == t[pid].flags
    decreases |during|
  {
    if during != [] {
      var n := |during| - 1;
      assert forall k | 0 <= k <= n :: during[..n][..k] == during[..k];
      FoundIsAtBegin(t, pid, during[..n]);
      var u := Run(Next(t, BeginStartup(pid)), during[..n]);
      assert pid in u && u[pid].phase != Free;
    }
  }

  /**
   A process that has started its own pipeline, in every run: its teardown is still open if
   and only if the flags that the startup found were a completed startup's or showed no
   shutdown, and no body has begun since that attempt passed the guard, or since it cleared
   the flag. It has lost its teardown, for good, if and only if it is closed although no body
   has begun since the startup.
   */
  lemma TeardownAfterStartupIff(root: Pid, steps: seq<Step>, pid: Pid, after: seq<Step>)
    requires pid in Run(Cold(root), steps) && Run(Cold(root), steps)[pid].started == 1
    ensures var p := Run(Cold(root), steps)[pid];
            !p.flags.shutdownDone <==> !Stuck(p.found) && p.bodiesSinceAttempt == 0
    ensures var t := Run(Cold(root), steps);
            t[pid].flags.shutdownDone ==>
              pid in Run(t, after) && Run(t, after)[pid].bodiesSinceStart == t[pid].bodiesSinceStart
  {
    RunsKeepGuards(root, steps);
    var t := Run(Cold(root), steps);
    if t[pid].flags.shutdownDone {
      ClosedForGood(t, pid, after);
    }
  }

  lemma {:induction false} ClosedForGood(t: Tree, pid: Pid, steps: seq<Step>)
    requires Inv(t) && pid in t && t[pid].started == 1 && t[pid].flags.shutdownDone
    ensures Inv(Run(t, steps)) && pid in Run(t, steps)
    ensures var p := Run(t, steps)[pid];
            p.started == 1 && p.flags.shutdownDone && p.bodiesSinceStart == t[pid].bodiesSinceStart
  {
    if steps != [] {
      var before := steps[..|steps| - 1];
      ClosedForGood(t, pid, before);
      StepKeepsInv(Run(t, before), steps[|steps| - 1]);
    }
  }

  // ---------------------------------------------------------------------------
  // Teardowns that are lost
  // ---------------------------------------------------------------------------

  /** Started, with the guard closed and no teardown body since. */
  predicate Lost(p: Process) {
    p.started == 1 && p.flags.shutdownDone && p.bodiesSinceStart == 0
  }

  /** A process whose first startup failed and whose shutdown ran starts on retry, stuck. */
  lemma LostTeardown(root: Pid)
    ensures var failed := Next(Next(Cold(root), BeginStartup(root)), FinishStartup(root, false));
            var down := Next(Next(failed, EnterShutdown(root)), LeaveShutdown(root));
            var t := Next(Next(Next(down, BeginStartup(root)), FinishStartup(root, true)), WriteOrigin(root));
            root in t && Lost(t[root]) && Stuck(t[root].found) && Next(t, EnterShutdown(root)) == t
  {
  }

  /** A shutdown that runs while startup is under way is not taken back by the startup. */
  lemma LostDuringStartup(root: Pid)
    ensures var begun := Next(Cold(root), BeginStartup(root));
            var down := Next(Next(begun, EnterShutdown(root)), LeaveShutdown(root));
            var t := Next(Next(down, FinishStartup(root, true)), WriteOrigin(root));
            && root in t && Lost(t[root]) && !Stuck(t[root].found) && t[root].bodiesSinceAttempt == 1
            && Next(t, EnterShutdown(root)) == t
  {
  }

  // ---------------------------------------------------------------------------
  // Children
  // ---------------------------------------------------------------------------

  /** A process born with a completed startup's flags clears them before it can start. */
  ghost predicate ClearsFirst(p: Process) {
    && (p.phase in {Initializing, Committing} || p.started == 1 ==> p.cleared == 1)
    && (p.phase == Free && p.started == 0 ==> p.flags.startupCompleted || p.cleared == 1)
  }

  /** A process born stuck never clears the flag and never runs a teardown body. */
  ghost predicate NeverTearsDown(p: Process) {
    && p.flags.shutdownDone && p.bodies == 0 && p.bodiesSinceStart == 0 && p.phase != Discarding
    && (p.started == 0 && p.phase != Committing ==> !p.flags.startupCompleted)
  }

  lemma {:induction false} ChildClearsFirst(t: Tree, child: Pid, steps: seq<Step>)
    requires Inv(t) && child in t && ClearsFirst(t[child])
    ensures Inv(Run(t, steps)) && child in Run(t, steps) && ClearsFirst(Run(t, steps)[child])
  {
    if steps != [] {
      var before := steps[..|steps| - 1];
      ChildClearsFirst(t, child, before);
      StepKeepsInv(Run(t, before), steps[|steps| - 1]);
    }
  }

  lemma ProcessStaysStuck(p: Process, pid: Pid, known: set<Pid>, step: Step)
    requires ProcessInv(p, pid, known) && NeverTearsDown(p)
    ensures NeverTearsDown(NextProcess(p, pid, step))
  {
  }

  lemma {:induction false} ChildStaysStuck(t: Tree, child: Pid, steps: seq<Step>)
    requires Inv(t) && child in t && NeverTearsDown(t[child])
    ensures Inv(Run(t, steps)) && child in Run(t, steps) && NeverTearsDown(Run(t, steps)[child])
  {
    if steps != [] {
      var before := steps[..|steps| - 1];
      ChildStaysStuck(t, child, before);
      var u, step := Run(t, before), steps[|steps| - 1];
      StepKeepsInv(u, step);
      ProcessStaysStuck(u[child], child, u.Keys, step);
    }
  }

  lemma {:induction false} BornStays(t: Tree, child: Pid, steps: seq<Step>)
    requires Inv(t) && child in t
    ensures Inv(Run(t, steps)) && child in Run(t, steps) && Run(t, steps)[child].bornDone == t[child].bornDone
  {
    if steps != [] {
      var before := steps[..|steps| - 1];
      BornStays(t, child, before);
      StepKeepsInv(Run(t, before), steps[|steps| - 1]);
    }
  }

  function Forked(root: Pid, before: seq<Step>, parent: Pid, child: Pid): Tree {
    Next(Run(Cold(root), before), Fork(parent, child))
  }

  /**
   A child of any process, after any continuation. Unless the parent's flags were stuck at
   the fork: once the child has started its own pipeline, its teardown is open exactly until
   a body of its own begins, counted from the discarding of the inherited flags if there was
   one. If they were stuck, the child never runs a teardown body, started or not.
   */
  lemma ChildOfShutDownParent(root: Pid, before: seq<Step>, parent: Pid, child: Pid, after: seq<Step>)
    requires parent in Run(Cold(root), before) && child !in Run(Cold(root), before)
    ensures var f := Run(Cold(root), before)[parent].flags;
            var u := Run(Forked(root, before, parent, child), after);
            && child in u
            && (!Stuck(f) && u[child].started == 1 ==>
                  (!u[child].flags.shutdownDone <==> u[child].bodiesSinceClear == 0))
            && (Stuck(f) ==> u[child].flags.shutdownDone && u[child].bodies == 0)
  {
    RunsKeepGuards(root, before);
    var t := Run(Cold(root), before);
    StepKeepsInv(t, Fork(parent, child));
    var u := Forked(root, before, parent, child);
    if t[parent].flags.startupCompleted {
      ChildClearsFirst(u, child, after);
    } else if t[parent].flags.shutdownDone {
      ChildStaysStuck(u, child, after);
    } else {
      BornStays(u, child, after);
    }
  }

  /** The child starts its own pipeline undisturbed and then shuts down. */
  function OwnCycle(child: Pid): seq<Step> {
    [BeginStartup(child)] + [ClearShutdownFlag(child)] + [FinishStartup(child, true)] + [WriteOrigin(child)]
    + [EnterShutdown(child)]
  }

  lemma RunOne(t: Tree, steps: seq<Step>, step: Step)
    ensures Run(t, steps + [step]) == Next(Run(t, steps), step)
  {
    assert (steps + [step])[..|steps|] == steps;
  }

  lemma OwnCycleTearsDown(t: Tree, child: Pid)
    requires child in t && t[child].phase == Free && !t[child].shuttingDown && t[child].started == 0
    requires !AlreadyStarted(t[child].flags, child) && !Stuck(t[child].flags)
    ensures var u := Run(t, OwnCycle(child)); child in u && TornDown(u[child])
  {
    var a, b, c, d := BeginStartup(child), ClearShutdownFlag(child), FinishStartup(child, true), WriteOrigin(child);
    assert [] + [a] == [a];
    RunOne(t, [], a);
    RunOne(t, [a], b);
    RunOne(t, [a] + [b], c);
    RunOne(t, [a] + [b] + [c], d);
    RunOne(t, [a] + [b] + [c] + [d], EnterShutdown(child));
  }

  /** Started its own pipeline and ran a teardown body after that. */
  predicate TornDown(p: Process) {
    p.started == 1 && p.bodiesSinceStart == 1
  }

  /**
   A forked child can run the teardown of its own pipeline in some continuation if and only
   if the parent's flags were not stuck at the fork.
   */
  lemma ChildTeardownIff(root: Pid, before: seq<Step>, parent: Pid, child: Pid)
    requires parent in Run(Cold(root), before) && child !in Run(Cold(root), before)
    ensures (exists after :: child in Run(Forked(root, before, parent, child), after) &&
                             TornDown(Run(Forked(root, before, parent, child), after)[child]))
            <==> !Stuck(Run(Cold(root), before)[parent].flags)
  {
    var t, u := Run(Cold(root), before), Forked(root, before, parent, child);
    RunsKeepGuards(root, before);
    StepKeepsInv(t, Fork(parent, child));
    if Stuck(t[parent].flags) {
      forall after ensures child in Run(u, after) && !TornDown(Run(u, after)[child]) {
        ChildStaysStuck(u, child, after);
      }
    } else {
      OwnCycleTearsDown(u, child);
    }
  }

  /** A parent that shut down before any startup completed: its child starts and loses its teardown. */
  lemma ChildLosesTeardown(root: Pid, child: Pid)
    requires root != child
    ensures var down := Next(Next(Cold(root), EnterShutdown(root)), LeaveShutdown(root));
            var born := Next(down, Fork(root, child));
            var t := Next(Next(Next(born, BeginStartup(child)), FinishStartup(child, true)), WriteOrigin(child));
            child in t && Lost(t[child]) && Next(t, EnterShutdown(child)) == t
  {
  }
}
