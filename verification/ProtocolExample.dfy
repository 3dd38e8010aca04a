/**
 A run from the state after userinit in which the protocol does what it is for: init runs,
 forks a child, waits for it and sleeps, the child runs and exits, and init wakes up and
 frees it.
 */
module ProtocolExample {
  import opened Wrappers
  import opened Protocol
  import opened ProtocolInv
  import opened ProtocolSafety

  /** One CPU and two slots. */
  function Two(q0: ProcSlot, q1: ProcSlot, u: Cpu, locks: map<LockId, nat>, nextpid: nat): State {
    State([q0, q1], [u], locks, nextpid, 0)
  }

  /** run, and one state more. */
  lemma Next(run: seq<State>, a: Act, s: State) returns (run': seq<State>)
    requires IsRun(run) && Step(run[|run| - 1], s, 0, a)
    ensures IsRun(run') && |run'| == |run| + 1 && run <= run' && run'[|run|] == s
  {
    hide Step, Init;
    run' := run + [s];
    assert Steps(run[|run| - 1], s);
    forall t | 0 <= t < |run'| - 1 ensures Steps(run'[t], run'[t + 1]) {
      if t < |run| - 1 {
        assert Steps(run[t], run[t + 1]);
      }
    }
  }

  /** The thread that CPU 0 runs takes a step of one of the three common kinds. */
  predicate RunsNow(s: State) { |s.cpus| == 1 && 0 <= s.cpus[0].run < |s.procs| && Me(s).intr.NoYield? }

  function Me(s: State): ProcSlot
    requires |s.cpus| == 1 && 0 <= s.cpus[0].run < |s.procs|
  {
    s.procs[s.cpus[0].run]
  }

  lemma Acquires(run: seq<State>, s: State) returns (run': seq<State>)
    requires IsRun(run) && RunsNow(run[|run| - 1])
    requires var (t, p) := (run[|run| - 1], run[|run| - 1].cpus[0].run);
             && Want(Me(t), p, |t.procs|).Some? && Holder(t, Want(Me(t), p, |t.procs|).value) == -1
             && s == Goto(Take(t, Want(Me(t), p, |t.procs|).value, 0), p, Got(Me(t).pc))
    ensures IsRun(run') && |run'| == |run| + 1 && run <= run' && run'[|run|] == s
  {
    hide IsRun, Want, Got;
    run' := Next(run, Acquire, s);
  }

  lemma Releases(run: seq<State>, s: State) returns (run': seq<State>)
    requires IsRun(run) && RunsNow(run[|run| - 1])
    requires var (t, p) := (run[|run| - 1], run[|run| - 1].cpus[0].run);
             Lets(Me(t), p).Some? && s == Goto(Free(t, Lets(Me(t), p).value), p, Gone(Me(t).pc))
    ensures IsRun(run') && |run'| == |run| + 1 && run <= run' && run'[|run|] == s
  {
    hide IsRun, Lets, Gone;
    run' := Next(run, Release, s);
  }

  lemma Worked(run: seq<State>, s: State) returns (run': seq<State>)
    requires IsRun(run) && RunsNow(run[|run| - 1])
    requires var (t, p) := (run[|run| - 1], run[|run| - 1].cpus[0].run);
             Works(Me(t).pc, |t.procs|) && s == Work(t, 0, p, true)
    ensures IsRun(run') && |run'| == |run| + 1 && run <= run' && run'[|run|] == s
  {
    hide IsRun, Works, Work;
    run' := Next(run, Body(true), s);
  }

  /** init, and the child that it forks. */
  const INIT := ProcSlot(RUNNABLE, NoChan, false, 1, -1, true, ForkRet, NoYield, -1, -1)
  const CHILD := ProcSlot(RUNNABLE, NoChan, false, 2, 0, true, ForkRet, NoYield, -1, -1)

  function InitAt(pc: Pc): ProcSlot { INIT.(state := RUNNING, on := 0, pc := pc) }
  function ChildAt(pc: Pc): ProcSlot { CHILD.(state := RUNNING, on := 0, pc := pc) }

  /** The slot of the child while it is made, and when it is dead. */
  const TAKEN := UNUSED_SLOT.(state := USED, pid := 2, maker := 0)
  const FORKED := TAKEN.(pages := true, pc := ForkRet)
  const CORPSE := CHILD.(state := ZOMBIE, pc := Dead)

  /** init in its sleep, and woken from it. */
  const WAITS := INIT.(state := SLEEPING, chan := ProcChan(0), pc := SleepBack(InWait))
  const WOKEN := INIT.(pc := SleepBack(InWait))

  /** init with its channel set, and the child on its way out. */
  function Ready(pc: Pc): ProcSlot { InitAt(pc).(chan := ProcChan(0)) }

  const CHILD_EXITED := CHILD.(state := ZOMBIE, on := 0, pc := ExitRel)
  const CHILD_GONE := CHILD.(state := ZOMBIE, on := 0, pc := ExitSched)

  /** The locks that CPU 0 holds. */
  const L0: map<LockId, nat> := map[ProcLock(0) := 0]
  const L1: map<LockId, nat> := map[ProcLock(1) := 0]
  const W: map<LockId, nat> := map[WaitLock := 0]
  const W0: map<LockId, nat> := map[WaitLock := 0, ProcLock(0) := 0]
  const W1: map<LockId, nat> := map[WaitLock := 0, ProcLock(1) := 0]

  /** CPU 0 runs init, with q1 in the other slot. */
  function Of0(pc: Pc, q1: ProcSlot, locks: map<LockId, nat>, nextpid: nat): State {
    Two(InitAt(pc), q1, Cpu(0, 0, Back(0)), locks, nextpid)
  }

  /** CPU 0 runs the child, with q0 in the slot of init. */
  function Of1(q0: ProcSlot, q1: ProcSlot, locks: map<LockId, nat>): State {
    Two(q0, q1, Cpu(1, 1, Back(1)), locks, 3)
  }

  /** CPU 0 is in its scheduler. */
  function OfSched(q0: ProcSlot, q1: ProcSlot, proc: int, pc: SchedPc, locks: map<LockId, nat>, nextpid: nat): State {
    Two(q0, q1, Cpu(-1, proc, pc), locks, nextpid)
  }

  /** A run that ends in s. */
  ghost predicate Ends(run: seq<State>, s: State) { run != [] && IsRun(run) && run[|run| - 1] == s }

  /** The scheduler runs init. */
  lemma Boots() returns (run: seq<State>)
    ensures Ends(run, Of0(User, UNUSED_SLOT, map[], 2))
  {
    var s := OfSched(INIT, UNUSED_SLOT, -1, Pick(0), map[], 2);
    assert Init(s);
    run := [s];
    run := Next(run, Sched, OfSched(INIT, UNUSED_SLOT, -1, Test(0), L0, 2));
    run := Next(run, Sched, Of0(ForkRet, UNUSED_SLOT, L0, 2));
    run := Releases(run, Of0(User, UNUSED_SLOT, map[], 2));
  }

  /** init finds a slot in kfork. */
  lemma Allocates(before: seq<State>) returns (run: seq<State>)
    requires Ends(before, Of0(User, UNUSED_SLOT, map[], 2))
    ensures Ends(run, Of0(PidBody(1), UNUSED_SLOT, map[ProcLock(1) := 0, PidLock := 0], 2)) && before <= run
  {
    hide IsRun, ExitWork, WakeWork, WaitWork, SleepWork;
    run := before;
    run := Next(run, Act.Start(AllocAcq(0)), Of0(AllocAcq(0), UNUSED_SLOT, map[], 2));
    run := Acquires(run, Of0(AllocBody(0), UNUSED_SLOT, L0, 2));
    run := Worked(run, Of0(AllocAcq(1), UNUSED_SLOT, map[], 2));
    run := Acquires(run, Of0(AllocBody(1), UNUSED_SLOT, L1, 2));
    run := Worked(run, Of0(PidAcq(1), UNUSED_SLOT, L1, 2));
    run := Acquires(run, Of0(PidBody(1), UNUSED_SLOT, map[ProcLock(1) := 0, PidLock := 0], 2));
  }

  /** It gives the child a pid and its pages. */
  lemma Fills(before: seq<State>) returns (run: seq<State>)
    requires Ends(before, Of0(PidBody(1), UNUSED_SLOT, map[ProcLock(1) := 0, PidLock := 0], 2))
    ensures Ends(run, Of0(MemBody(1), TAKEN, map[ProcLock(1) := 0, MemLock := 0], 3)) && before <= run
  {
    hide IsRun, ExitWork, WakeWork, WaitWork, SleepWork;
    run := before;
    run := Worked(run, Of0(MemAcq(1), TAKEN, L1, 3));
    run := Acquires(run, Of0(MemBody(1), TAKEN, map[ProcLock(1) := 0, MemLock := 0], 3));
  }

  /** It has the memory copied. */
  lemma Copies(before: seq<State>) returns (run: seq<State>)
    requires Ends(before, Of0(MemBody(1), TAKEN, map[ProcLock(1) := 0, MemLock := 0], 3))
    ensures Ends(run, Of0(ParentAcq(1), FORKED, map[], 3)) && before <= run
  {
    hide IsRun, ExitWork, WakeWork, WaitWork, SleepWork;
    run := before;
    run := Worked(run, Of0(Copied(1), FORKED, L1, 3));
    run := Releases(run, Of0(ParentAcq(1), FORKED, map[], 3));
  }

  /** It makes itself the parent, and the child runnable. */
  lemma Forks(before: seq<State>) returns (run: seq<State>)
    requires Ends(before, Of0(ParentAcq(1), FORKED, map[], 3))
    ensures Ends(run, Of0(User, CHILD, map[], 3)) && before <= run
  {
    hide IsRun, ExitWork, WakeWork, WaitWork, SleepWork;
    run := before;
    run := Acquires(run, Of0(ParentBody(1), FORKED, W, 3));
    run := Worked(run, Of0(RunAcq(1), FORKED.(parent := 0), map[], 3));
    run := Acquires(run, Of0(RunBody(1), FORKED.(parent := 0), L1, 3));
    run := Worked(run, Of0(User, CHILD, map[], 3));
  }

  /** init looks for a zombie in kwait, and finds that its child is none. */
  lemma Scans(before: seq<State>) returns (run: seq<State>)
    requires Ends(before, Of0(User, CHILD, map[], 3))
    ensures Ends(run, Of0(Scan(2, true), CHILD, W, 3)) && before <= run
  {
    hide IsRun, ForkWork, ExitWork, WakeWork, SleepWork;
    run := before;
    run := Next(run, Act.Start(WaitAcq), Of0(WaitAcq, CHILD, map[], 3));
    run := Acquires(run, Of0(Scan(0, false), CHILD, W, 3));
    run := Worked(run, Of0(Scan(1, false), CHILD, W, 3));
    run := Worked(run, Of0(ChildAcq(1), CHILD, W, 3));
    run := Acquires(run, Of0(ChildBody(1), CHILD, W1, 3));
    run := Worked(run, Of0(Scan(2, true), CHILD, W, 3));
  }

  /** It prepares to sleep. */
  lemma Prepares(before: seq<State>) returns (run: seq<State>)
    requires Ends(before, Of0(Scan(2, true), CHILD, W, 3))
    ensures Ends(run, Of0(PrepAcq(ProcChan(0), InWait), CHILD, W, 3)) && before <= run
  {
    hide IsRun, ForkWork, ExitWork, WakeWork;
    run := before;
    run := Worked(run, Of0(KilledAcq, CHILD, W, 3));
    run := Acquires(run, Of0(KilledBody, CHILD, W0, 3));
    run := Worked(run, Of0(PrepAcq(ProcChan(0), InWait), CHILD, W, 3));
  }

  /** It sets its channel. */
  lemma Registers(before: seq<State>) returns (run: seq<State>)
    requires Ends(before, Of0(PrepAcq(ProcChan(0), InWait), CHILD, W, 3))
    ensures Ends(run, Two(Ready(WaitDrop), CHILD, Cpu(0, 0, Back(0)), W, 3)) && before <= run
  {
    hide IsRun, ForkWork, ExitWork, WakeWork;
    run := before;
    run := Acquires(run, Of0(PrepBody(ProcChan(0), InWait), CHILD, W0, 3));
    run := Worked(run, Two(Ready(WaitDrop), CHILD, Cpu(0, 0, Back(0)), W, 3));
  }

  /** It sleeps. */
  lemma Sleeps(before: seq<State>) returns (run: seq<State>)
    requires Ends(before, Two(Ready(WaitDrop), CHILD, Cpu(0, 0, Back(0)), W, 3))
    ensures Ends(run, OfSched(WAITS, CHILD, 0, Back(0), L0, 3)) && before <= run
  {
    hide IsRun, ForkWork, ExitWork, WakeWork, WaitWork;
    run := before;
    run := Releases(run, Two(Ready(SleepAcq(InWait)), CHILD, Cpu(0, 0, Back(0)), map[], 3));
    run := Acquires(run, Two(Ready(SleepBody(InWait)), CHILD, Cpu(0, 0, Back(0)), L0, 3));
    run := Worked(run, OfSched(WAITS, CHILD, 0, Back(0), L0, 3));
  }

  /** The scheduler runs the child. */
  lemma Switches(before: seq<State>) returns (run: seq<State>)
    requires Ends(before, OfSched(WAITS, CHILD, 0, Back(0), L0, 3))
    ensures Ends(run, Of1(WAITS, ChildAt(User), map[])) && before <= run
  {
    run := before;
    run := Next(run, Sched, OfSched(WAITS, CHILD, -1, Leave(0), L0, 3));
    run := Next(run, Sched, OfSched(WAITS, CHILD, -1, Pick(1), map[], 3));
    run := Next(run, Sched, OfSched(WAITS, CHILD, -1, Test(1), L1, 3));
    run := Next(run, Sched, Of1(WAITS, ChildAt(ForkRet), L1));
    run := Releases(run, Of1(WAITS, ChildAt(User), map[]));
  }

  /** The child exits: it has no children of its own. */
  lemma Exits(before: seq<State>) returns (run: seq<State>)
    requires Ends(before, Of1(WAITS, ChildAt(User), map[]))
    ensures Ends(run, Of1(WAITS, ChildAt(WakeAcq(ProcChan(0), 0, ToExit)), W)) && before <= run
  {
    hide IsRun, ForkWork, WakeWork, WaitWork, SleepWork;
    run := before;
    run := Next(run, Act.Start(ExitAcq), Of1(WAITS, ChildAt(ExitAcq), map[]));
    run := Acquires(run, Of1(WAITS, ChildAt(Pc.Reparent(0)), W));
    run := Worked(run, Of1(WAITS, ChildAt(Pc.Reparent(1)), W));
    run := Worked(run, Of1(WAITS, ChildAt(Pc.Reparent(2)), W));
    run := Worked(run, Of1(WAITS, ChildAt(WakeAcq(ProcChan(0), 0, ToExit)), W));
  }

  /** It wakes init up. */
  lemma WakesInit(before: seq<State>) returns (run: seq<State>)
    requires Ends(before, Of1(WAITS, ChildAt(WakeAcq(ProcChan(0), 0, ToExit)), W))
    ensures Ends(run, Of1(WOKEN, ChildAt(WakeBody(ProcChan(0), 1, ToExit)), W1)) && before <= run
  {
    hide IsRun, ForkWork, ExitWork, WaitWork, SleepWork;
    run := before;
    run := Acquires(run, Of1(WAITS, ChildAt(WakeBody(ProcChan(0), 0, ToExit)), W0));
    run := Worked(run, Of1(WOKEN, ChildAt(WakeAcq(ProcChan(0), 1, ToExit)), W));
    run := Acquires(run, Of1(WOKEN, ChildAt(WakeBody(ProcChan(0), 1, ToExit)), W1));
  }

  /** It looks at its own slot too, and is through. */
  lemma WakesOther(before: seq<State>) returns (run: seq<State>)
    requires Ends(before, Of1(WOKEN, ChildAt(WakeBody(ProcChan(0), 1, ToExit)), W1))
    ensures Ends(run, Of1(WOKEN, ChildAt(OwnAcq), W)) && before <= run
  {
    hide IsRun, ForkWork, ExitWork, WaitWork, SleepWork;
    run := before;
    run := Worked(run, Of1(WOKEN, ChildAt(WakeAcq(ProcChan(0), 2, ToExit)), W));
    run := Worked(run, Of1(WOKEN, ChildAt(OwnAcq), W));
  }

  /** It becomes a zombie. */
  lemma Dies(before: seq<State>) returns (run: seq<State>)
    requires Ends(before, Of1(WOKEN, ChildAt(OwnAcq), W))
    ensures Ends(run, Of1(WOKEN, CHILD_EXITED, W1)) && before <= run
  {
    hide IsRun, ForkWork, WakeWork, WaitWork, SleepWork;
    run := before;
    run := Acquires(run, Of1(WOKEN, ChildAt(ZombieBody), W1));
    run := Worked(run, Of1(WOKEN, CHILD_EXITED, W1));
  }

  /** The scheduler runs init again. */
  lemma Resumes(before: seq<State>) returns (run: seq<State>)
    requires Ends(before, Of1(WOKEN, CHILD_EXITED, W1))
    ensures Ends(run, Of0(SleepBack(InWait), CORPSE, L0, 3)) && before <= run
  {
    hide IsRun, ForkWork, WakeWork, WaitWork, SleepWork;
    run := before;
    run := Releases(run, Of1(WOKEN, CHILD_GONE, L1));
    run := Worked(run, OfSched(WOKEN, CORPSE, 1, Back(1), L1, 3));
    run := Next(run, Sched, OfSched(WOKEN, CORPSE, -1, Leave(1), L1, 3));
    run := Next(run, Sched, OfSched(WOKEN, CORPSE, -1, Pick(0), map[], 3));
    run := Next(run, Sched, OfSched(WOKEN, CORPSE, -1, Test(0), L0, 3));
    run := Next(run, Sched, Of0(SleepBack(InWait), CORPSE, L0, 3));
  }

  /** init scans again, and finds the zombie. */
  lemma Finds(before: seq<State>) returns (run: seq<State>)
    requires Ends(before, Of0(SleepBack(InWait), CORPSE, L0, 3))
    ensures Ends(run, Of0(Scan(1, false), CORPSE, W, 3)) && before <= run
  {
    hide IsRun, ForkWork, ExitWork, WakeWork, SleepWork;
    run := before;
    run := Releases(run, Of0(WaitAcq, CORPSE, map[], 3));
    run := Acquires(run, Of0(Scan(0, false), CORPSE, W, 3));
    run := Worked(run, Of0(Scan(1, false), CORPSE, W, 3));
  }

  /** It takes the zombie. */
  lemma Takes(before: seq<State>) returns (run: seq<State>)
    requires Ends(before, Of0(Scan(1, false), CORPSE, W, 3))
    ensures Ends(run, Of0(ReapAcq(1), CORPSE.(parent := -1), W1, 3)) && before <= run
  {
    hide IsRun, ForkWork, ExitWork, WakeWork, SleepWork;
    run := before;
    run := Worked(run, Of0(ChildAcq(1), CORPSE, W, 3));
    run := Acquires(run, Of0(ChildBody(1), CORPSE, W1, 3));
    run := Worked(run, Of0(ReapAcq(1), CORPSE.(parent := -1), W1, 3));
  }

  /** It frees the zombie, and returns. */
  lemma Reaps(before: seq<State>) returns (run: seq<State>)
    requires Ends(before, Of0(ReapAcq(1), CORPSE.(parent := -1), W1, 3))
    ensures Ends(run, Of0(ReapRel(1), UNUSED_SLOT, W1, 3)) && before <= run
  {
    hide IsRun, ForkWork, ExitWork, WakeWork, SleepWork;
    run := before;
    var locks := map[WaitLock := 0, ProcLock(1) := 0, MemLock := 0];
    run := Acquires(run, Of0(ReapBody(1), CORPSE.(parent := -1), locks, 3));
    run := Worked(run, Of0(ReapRel(1), UNUSED_SLOT, W1, 3));
  }

  /** It releases the locks, and returns. */
  lemma Returns(before: seq<State>) returns (run: seq<State>)
    requires Ends(before, Of0(ReapRel(1), UNUSED_SLOT, W1, 3))
    ensures Ends(run, Of0(User, UNUSED_SLOT, map[], 3)) && before <= run
  {
    hide IsRun, ForkWork, ExitWork, WakeWork, SleepWork;
    run := before;
    run := Releases(run, Of0(WaitRel, UNUSED_SLOT, W, 3));
    run := Releases(run, Of0(User, UNUSED_SLOT, map[], 3));
  }

  /**
   There is a run in which init runs, then sleeps in kwait with a child that lives, then has a
   zombie child, and then has freed it and is back from kwait.
   */
  lemma LifeOfAChild() returns (run: seq<State>, t1: nat, t2: nat, t3: nat, t4: nat)
    ensures IsRun(run) && t1 < t2 < t3 < t4 == |run| - 1
    ensures forall t | t in {t1, t2, t3, t4} :: |run[t].procs| == 2 && |run[t].cpus| == 1 && run[t].init == 0
    ensures run[t1].procs[0].state.RUNNING? && run[t1].cpus[0].run == 0
    ensures run[t2].procs[0].state.SLEEPING? && run[t2].procs[0].pc == SleepBack(InWait)
    ensures Alive(run[t2].procs[1]) && run[t2].procs[1].parent == 0
    ensures run[t3].procs[1].state.ZOMBIE? && run[t3].procs[1].parent == 0
    ensures run[t4].procs[1] == UNUSED_SLOT && run[t4].procs[0].pc == User && run[t4].cpus[0].run == 0
  {
    hide IsRun;
    run := Boots();
    t1 := |run| - 1;
    run := Allocates(run);
    run := Fills(run);
    run := Copies(run);
    run := Forks(run);
    run := Scans(run);
    run := Prepares(run);
    run := Registers(run);
    run := Sleeps(run);
    t2 := |run| - 1;
    run := Switches(run);
    run := Exits(run);
    run := WakesInit(run);
    run := WakesOther(run);
    run := Dies(run);
    t3 := |run| - 1;
    run := Resumes(run);
    run := Finds(run);
    run := Takes(run);
    run := Reaps(run);
    run := Returns(run);
    t4 := |run| - 1;
  }
}
