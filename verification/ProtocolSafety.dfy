/**
 What the protocol guarantees in every state of every run, with any number of CPUs and
 processes.
 */
module ProtocolSafety {
  import opened Protocol
  import opened Wrappers
  import opened ProtocolInv
  import opened ProtocolSteps
  import opened ProtocolProofs
  import opened ProtocolLocks
  import opened ProtocolFamily

  // ------------------------------------------------------------- the scheduler

  /** A step of the scheduler that touches its own CPU and one slot lock only. */
  predicate Idles(s: State, s': State, c: nat, i: nat) {
    && c < |s.cpus| == |s'.cpus| && s.cpus[c].run < 0 && s'.cpus[c].run < 0 && i < |s.procs|
    && s'.procs == s.procs && s'.nextpid == s.nextpid && s'.init == s.init
    && s'.cpus == s.cpus[c := s'.cpus[c]]
    && (s'.locks == s.locks || s'.locks == s.locks[ProcLock(i) := c] || s'.locks == s.locks - {ProcLock(i)})
  }

  lemma IdleThreads(s: State, s': State, c: nat, i: nat)
    requires ThreadsInv(s) && FamilyInv(s) && WakeupsInv(s) && PidsInv(s) && Idles(s, s', c, i)
    ensures ThreadsInv(s') && FamilyInv(s') && WakeupsInv(s') && PidsInv(s')
  {
    SameWaiter(s, s', c, i);
    hide Waiter;
    forall p | 0 <= p < |s'.procs| ensures ProcOk(s', p) && PcOk(s', p) && FamilyOk(s', p) && NotLost(s', p) {
      assert ProcOk(s, p) && PcOk(s, p) && FamilyOk(s, p) && NotLost(s, p);
    }
  }

  lemma SameWaiter(s: State, s': State, c: nat, i: nat)
    requires Idles(s, s', c, i)
    ensures Waiter(s') == Waiter(s)
  {
  }

  lemma IdleCpus(s: State, s': State, c: nat, i: nat)
    requires CpusInv(s) && Idles(s, s', c, i) && CpuOk(s', c)
    ensures CpusInv(s')
  {
    forall d | 0 <= d < |s'.cpus| ensures CpuOk(s', d) {
      assert CpuOk(s, d);
    }
    forall p | 0 <= p < |s'.procs| ensures OnOk(s', p) {
      assert OnOk(s, p);
    }
  }

  lemma IdleLocks(s: State, s': State, c: nat, i: nat)
    requires CpusInv(s) && LocksInv(s) && Idles(s, s', c, i) && LockStep(s, s', c)
    ensures LocksInv(s')
  {
    forall l | l in s'.locks ensures s'.locks[l] < |s'.cpus| {
      assert Holder(s', l) == Holder(s, l) || Holder(s', l) == c;
    }
    forall d: nat, l: LockId | d < |s'.cpus| ensures Holder(s', l) == d <==> CpuLocked(s', d, l) {
      if d != c {
        assert CpuLocked(s', d, l) == CpuLocked(s, d, l);
        assert Holder(s, l) == d <==> CpuLocked(s, d, l);
      }
    }
  }

  /** Acquiring, releasing or passing over a slot. */
  lemma KeepsIdle(s: State, s': State, c: nat, i: nat)
    requires Inv(s) && Idles(s, s', c, i) && CpuOk(s', c) && LockStep(s, s', c)
    ensures Inv(s')
  {
    hide CpuOk, LockStep, CpusInv, LocksInv, ThreadsInv, FamilyInv, WakeupsInv, PidsInv, Idles;
    IdleThreads(s, s', c, i);
    IdleCpus(s, s', c, i);
    IdleLocks(s, s', c, i);
  }

  lemma SchedIdles(s: State, s': State, c: nat)
    requires CpusInv(s) && LocksInv(s) && c < |s.cpus| && s.cpus[c].run < 0 && SchedStep(s, s', c)
    requires s.cpus[c].pc.Test? ==> !s.procs[s.cpus[c].pc.i].state.RUNNABLE?
    ensures Idles(s, s', c, s.cpus[c].pc.i) && CpuOk(s', c) && LockStep(s, s', c)
  {
    assert CpuOk(s, c);
    var i := s.cpus[c].pc.i;
    forall l: LockId
      ensures Holder(s', l) == c <==> CpuLocked(s', c, l)
      ensures Holder(s', l) == Holder(s, l) || (Holder(s, l) == -1 && Holder(s', l) == c)
              || (Holder(s, l) == c && Holder(s', l) == -1)
    {
      assert Holder(s, l) == c <==> CpuLocked(s, c, l);
    }
  }

  // ------------------------------------------- the scheduler enters a process

  /** The state after `p->state = RUNNING; c->proc = p; swtch(&c->context, &p->context)`. */
  function Entered(s: State, c: nat, i: nat): State
    requires c < |s.cpus| && i < |s.procs|
  {
    Upd(s, i, s.procs[i].(state := RUNNING, on := c)).(cpus := s.cpus[c := Cpu(i, i, Back(i))])
  }

  predicate Enters(s: State, c: nat, i: nat) {
    && c < |s.cpus| && i < |s.procs| && s.cpus[c].run < 0 && s.cpus[c].pc == Test(i) && s.procs[i].state.RUNNABLE?
  }

  /** Only c is about to do anything with slot i: it has the lock. */
  lemma EnterAlone(s: State, c: nat, i: nat)
    requires CpusInv(s) && LocksInv(s) && Enters(s, c, i)
    ensures Holder(s, ProcLock(i)) == c && Holder(s, WaitLock) != c
    ensures forall d | 0 <= d < |s.cpus| && s.cpus[d].run < 0 && s.cpus[d].pc == Back(i) :: d == c
  {
    assert CpuLocked(s, c, ProcLock(i)) && !CpuLocked(s, c, WaitLock);
    forall d | 0 <= d < |s.cpus| && s.cpus[d].run < 0 && s.cpus[d].pc == Back(i) ensures d == c {
      assert CpuLocked(s, d, ProcLock(i));
    }
  }

  lemma EnterCpus(s: State, c: nat, i: nat)
    requires CpusInv(s) && LocksInv(s) && Enters(s, c, i) && ProcOk(s, i)
    ensures CpusInv(Entered(s, c, i))
  {
    EnterAlone(s, c, i);
    var s' := Entered(s, c, i);
    hide LocksInv;
    forall d | 0 <= d < |s'.cpus| ensures CpuOk(s', d) {
      assert CpuOk(s, d);
    }
    forall p | 0 <= p < |s'.procs| ensures OnOk(s', p) {
      assert OnOk(s, p);
    }
  }

  lemma EnterLocks(s: State, c: nat, i: nat)
    requires CpusInv(s) && LocksInv(s) && Enters(s, c, i) && ProcOk(s, i)
    ensures LocksInv(Entered(s, c, i))
  {
    var s' := Entered(s, c, i);
    forall d: nat, l: LockId | d < |s'.cpus| ensures Holder(s', l) == d <==> CpuLocked(s', d, l) {
      assert CpuOk(s, d);
      assert Holder(s, l) == d <==> CpuLocked(s, d, l);
      if d == c {
        ResumedLocks(s, i, l);
      } else {
        assert CpuLocked(s', d, l) == CpuLocked(s, d, l);
      }
    }
  }

  /** A thread that may be entered expects its own lock and no other. */
  lemma ResumedLocks(s: State, i: nat, l: LockId)
    requires i < |s.procs| && ProcOk(s, i) && s.procs[i].state.RUNNABLE?
    ensures ThreadLocked(s.procs[i], i, l) <==> l == ProcLock(i)
  {
  }

  lemma EnterThreads(s: State, c: nat, i: nat)
    requires CpusInv(s) && LocksInv(s) && ThreadsInv(s) && Enters(s, c, i)
    ensures ThreadsInv(Entered(s, c, i))
  {
    var s' := Entered(s, c, i);
    hide CpusInv, LocksInv;
    forall p | 0 <= p < |s'.procs| ensures ProcOk(s', p) && PcOk(s', p) {
      assert ProcOk(s, p) && PcOk(s, p);
      EnterSlot(s, c, i, p);
      EnterPc(s, c, i, p);
    }
  }

  lemma EnterSlot(s: State, c: nat, i: nat, p: nat)
    requires Enters(s, c, i) && p < |s.procs| && ProcOk(s, p)
    ensures ProcOk(Entered(s, c, i), p)
  {
  }

  /** What threads know is about neither running nor the CPU. */
  predicate SameKnown(q: ProcSlot, q': ProcSlot) {
    && q'.parent == q.parent && q'.chan == q.chan && q'.pc == q.pc && q'.maker == q.maker && q'.pages == q.pages
    && q'.state.ZOMBIE? == q.state.ZOMBIE? && q'.state.USED? == q.state.USED? && q'.state.UNUSED? == q.state.UNUSED?
    && (q.state.ZOMBIE? ==> q'.on == q.on)
  }

  lemma EnterPc(s: State, c: nat, i: nat, p: nat)
    requires Enters(s, c, i) && p < |s.procs| && PcOk(s, p)
    ensures PcOk(Entered(s, c, i), p)
  {
    var s' := Entered(s, c, i);
    assert forall z | 0 <= z < |s.procs| :: SameKnown(s.procs[z], s'.procs[z]);
    hide Enters, Entered, PcOk, SameKnown;
    if HasWait(s.procs[p].pc) {
      KnownWait(s, s', p);
    } else {
      KnownFork(s, s', p);
    }
  }

  lemma KnownWait(s: State, s': State, p: nat)
    requires |s'.procs| == |s.procs| && s'.init == s.init && p < |s.procs| && PcOk(s, p) && HasWait(s.procs[p].pc)
    requires forall z | 0 <= z < |s.procs| :: SameKnown(s.procs[z], s'.procs[z])
    ensures PcOk(s', p)
  {
    KidsKept(s, s', p);
    hide HasKid;
  }

  lemma KnownFork(s: State, s': State, p: nat)
    requires |s'.procs| == |s.procs| && s'.init == s.init && p < |s.procs| && PcOk(s, p) && !HasWait(s.procs[p].pc)
    requires forall z | 0 <= z < |s.procs| :: SameKnown(s.procs[z], s'.procs[z])
    ensures PcOk(s', p)
  {
    KidsKept(s, s', p);
    hide HasKid;
  }

  lemma EnterFamily(s: State, c: nat, i: nat)
    requires CpusInv(s) && FamilyInv(s) && WakeupsInv(s) && PidsInv(s) && Enters(s, c, i) && Holder(s, WaitLock) != c
    ensures var s' := Entered(s, c, i); FamilyInv(s') && WakeupsInv(s') && PidsInv(s')
  {
    var s' := Entered(s, c, i);
    assert Waiter(s') == Waiter(s);
    hide Waiter;
    forall z | 0 <= z < |s'.procs| ensures FamilyOk(s', z) && NotLost(s', z) {
      assert FamilyOk(s, z) && NotLost(s, z);
    }
  }

  lemma KeepsEnter(s: State, c: nat, i: nat)
    requires Inv(s) && Enters(s, c, i)
    ensures Inv(Entered(s, c, i))
  {
    EnterAlone(s, c, i);
    assert ProcOk(s, i);
    hide CpusInv, LocksInv, ThreadsInv, FamilyInv, WakeupsInv, PidsInv, ProcOk, PcOk, Entered, Enters;
    EnterCpus(s, c, i);
    EnterLocks(s, c, i);
    EnterThreads(s, c, i);
    EnterFamily(s, c, i);
  }

  lemma KeepsSched(s: State, s': State, c: nat)
    requires Inv(s) && c < |s.cpus| && s.cpus[c].run < 0 && SchedStep(s, s', c)
    ensures Inv(s')
  {
    assert CpuOk(s, c);
    var i := s.cpus[c].pc.i;
    if s.cpus[c].pc.Test? && s.procs[i].state.RUNNABLE? {
      hide Inv;
      KeepsEnter(s, c, i);
    } else {
      SchedIdles(s, s', c);
      hide Inv, Idles, LockStep, CpuOk, SchedStep;
      KeepsIdle(s, s', c, i);
    }
  }

  // ------------------------------------------------------------------ all steps

  lemma KeepsWork(s: State, c: nat, p: nat, ok: bool)
    requires Inv(s) && Working(s, c, p)
    ensures Inv(Work(s, c, p, ok))
  {
    hide Inv, ForkWork, ExitWork, WakeWork, WaitWork, SleepWork;
    match s.procs[p].pc {
      case AllocAcq(i) => KeepsAllocDone(s, c, p, i, ok);
      case AllocBody(i) => KeepsAllocBody(s, c, p, i, ok);
      case PidBody(i) => KeepsPidBody(s, c, p, i, ok);
      case MemBody(i) =>
        if ok {
          KeepsMemBody(s, c, p, i);
        } else {
          KeepsMemFails(s, c, p, i);
        }
      case FailBody(i) => KeepsFailBody(s, c, p, i, ok);
      case ParentBody(i) => KeepsParentBody(s, c, p, i, ok);
      case RunBody(i) => KeepsRunBody(s, c, p, i, ok);
      case Reparent(i) =>
        if i < |s.procs| && s.procs[i].parent == p {
          KeepsAdopt(s, c, p, i);
        } else {
          KeepsPassed(s, c, p, i);
        }
      case ZombieBody => KeepsZombieBody(s, c, p);
      case ExitSched => KeepsExitSched(s, c, p);
      case WakeAcq(ch, i, k) => KeepsWakeDone(s, c, p, ch, i, k);
      case WakeBody(ch, i, k) => KeepsWakeBody(s, c, p, ch, i, k);
      case KillAcq(pid, i) => KeepsKillDone(s, c, p, pid, i);
      case KillBody(pid, i) => KeepsKillBody(s, c, p, pid, i);
      case SetBody => KeepsSetBody(s, c, p);
      case Scan(i, h) => KeepsScan(s, c, p, i, h, ok);
      case ChildBody(i) =>
        if s.procs[i].state.ZOMBIE? && ok {
          KeepsReap(s, c, p, i);
        } else {
          KeepsChildBody(s, c, p, i, ok);
        }
      case ReapBody(i) => KeepsReapBody(s, c, p, i, ok);
      case KilledBody => KeepsKilledBody(s, c, p, ok);
      case PrepBody(ch, w) => KeepsPrepBody(s, c, p, ch, w);
      case SleepBody(w) =>
        if s.procs[p].chan.NoChan? {
          KeepsAwake(s, c, p, w);
        } else {
          KeepsSleep(s, c, p, w);
        }
    }
  }

  lemma KeepsThread(s: State, s': State, c: nat, p: nat, a: Act)
    requires Inv(s) && Acting(s, c, p) && ThreadStep(s, s', c, p, a)
    ensures Inv(s')
  {
    hide Inv, Work, Works, Want, Lets, Starts, NoLocks, Got, Gone;
    match a {
      case Start(pc) => KeepsStart(s, c, p, pc);
      case Preempt => KeepsPreempt(s, c, p);
      case Acquire =>
        WantYield(s.procs[p], p, |s.procs|);
        if s.procs[p].intr.YieldAcq? {
          KeepsYieldAcq(s, c, p);
        } else {
          KeepsAcquire(s, c, p, Want(s.procs[p], p, |s.procs|).value);
        }
      case Release =>
        LetsYield(s.procs[p], p);
        if s.procs[p].intr.YieldBack? {
          KeepsYieldBack(s, c, p);
        } else {
          KeepsRelease(s, c, p, Lets(s.procs[p], p).value);
        }
      case Body(ok) => KeepsWork(s, c, p, ok);
      case CopyOut => KeepsCopyOut(s, c, p, s.procs[p].pc.i);
      case YieldSwitch => KeepsYieldSwitch(s, c, p);
      case Sched =>
    }
  }

  lemma WantYield(q: ProcSlot, p: nat, n: nat)
    requires Want(q, p, n).Some?
    ensures if q.intr.YieldAcq? then Want(q, p, n) == Some(ProcLock(p)) else q.intr.NoYield?
  {
  }

  lemma LetsYield(q: ProcSlot, p: nat)
    requires Lets(q, p).Some?
    ensures if q.intr.YieldBack? then Lets(q, p) == Some(ProcLock(p)) else q.intr.NoYield?
  {
  }

  /** Every step keeps the invariant. */
  lemma StepKeeps(s: State, s': State, c: nat, a: Act)
    requires Inv(s) && Step(s, s', c, a)
    ensures Inv(s')
  {
    hide Inv, ThreadStep, SchedStep;
    if a.Sched? {
      KeepsSched(s, s', c);
    } else {
      KeepsThread(s, s', c, s.cpus[c].run, a);
    }
  }

  lemma InitKeeps(s: State)
    requires Init(s)
    ensures Inv(s)
  {
    forall p | 0 <= p < |s.procs| ensures ProcOk(s, p) && PcOk(s, p) && FamilyOk(s, p) && NotLost(s, p) && OnOk(s, p) {
      if p != s.init {
        assert s.procs[p] == UNUSED_SLOT;
      }
    }
    forall c | 0 <= c < |s.cpus| ensures CpuOk(s, c) {
    }
    forall i | 0 <= i < |s.procs| && !s.procs[i].state.UNUSED? ensures i == s.init {
    }
  }

  /** One step after the other, from the state that userinit leaves. */
  ghost predicate IsRun(run: seq<State>) {
    && run != [] && Init(run[0])
    && forall t | 0 <= t < |run| - 1 :: Steps(run[t], run[t + 1])
  }

  ghost predicate Steps(s: State, s': State) {
    exists c: nat, a: Act :: Step(s, s', c, a)
  }

  /** The invariant holds in every state of every run. */
  lemma {:induction false} RunKeeps(run: seq<State>, t: nat)
    requires IsRun(run) && t < |run|
    ensures Inv(run[t])
  {
    if t == 0 {
      InitKeeps(run[0]);
    } else {
      RunKeeps(run, t - 1);
      assert Steps(run[t - 1], run[t]);
      var c: nat, a: Act :| Step(run[t - 1], run[t], c, a);
      StepKeeps(run[t - 1], run[t], c, a);
    }
  }

  // ----------------------------------------------------------- what it means

  /** Process p is in kwait, between sleep_prepare and the acquire of wait_lock after sleep. */
  predicate AsleepInWait(q: ProcSlot) {
    q.pc == WaitDrop || q.pc == SleepAcq(InWait) || q.pc == SleepBody(InWait) || q.pc == SleepBack(InWait)
  }

  /**
   No wakeup is lost in wait: whenever wait_lock is free, a process that has prepared to
   sleep or sleeps in kwait, and has not been woken up, has no zombie child. That holds for
   every interleaving with exits, kills and preemption. And nobody sleeps on no channel.
   */
  lemma NoLostWakeup(run: seq<State>, t: nat, q: nat, z: nat)
    requires IsRun(run) && t < |run| && q < |run[t].procs| && z < |run[t].procs|
    ensures var s := run[t];
            && (Holder(s, WaitLock) == -1 && AsleepInWait(s.procs[q]) && s.procs[q].chan == ProcChan(q) ==>
                  !(s.procs[z].parent == q && s.procs[z].state.ZOMBIE?))
            && (s.procs[q].state.SLEEPING? ==> s.procs[q].chan != NoChan)
  {
    RunKeeps(run, t);
    assert NotLost(run[t], z);
    assert ProcOk(run[t], q);
  }

  /**
   Nobody sleeps in wait for nothing: whenever wait_lock is free, a process that has prepared
   to sleep or sleeps in kwait, and has not been woken up, has a child that is still alive
   and whose exit will wake it up.
   */
  lemma SleeperHasChild(run: seq<State>, t: nat, q: nat)
    requires IsRun(run) && t < |run| && q < |run[t].procs|
    requires Holder(run[t], WaitLock) == -1 && AsleepInWait(run[t].procs[q]) && run[t].procs[q].chan == ProcChan(q)
    ensures exists z :: 0 <= z < |run[t].procs| && run[t].procs[z].parent == q && Alive(run[t].procs[z])
  {
    RunKeeps(run, t);
    var s := run[t];
    assert PcOk(s, q);
    assert HasKid(s, q);
    var z: nat :| z < |s.procs| && s.procs[z].parent == q;
    assert ProcOk(s, z);
    NoLostWakeup(run, t, q, z);
  }

  /** The scheduler loop of CPU c has process p in its hands, or has entered it. */
  predicate Points(s: State, c: nat, p: nat) {
    c < |s.cpus| && s.cpus[c].proc == p
  }

  /**
   A process is current on at most one CPU, and myproc() is the process whose thread runs.
   With its lock free, a process is RUNNING exactly when some c->proc points to it, and a
   zombie is off every CPU.
   */
  lemma OneCpu(run: seq<State>, t: nat, p: nat)
    requires IsRun(run) && t < |run| && p < |run[t].procs|
    ensures var s := run[t];
            && (forall c, d :: Points(s, c, p) && Points(s, d, p) ==> c == d)
            && (forall c | 0 <= c < |s.cpus| && s.cpus[c].run >= 0 :: s.cpus[c].proc == s.cpus[c].run)
            && (Holder(s, ProcLock(p)) == -1 ==> (s.procs[p].state.RUNNING? <==> exists c :: Points(s, c, p)))
            && (Holder(s, ProcLock(p)) == -1 && s.procs[p].state.ZOMBIE? ==> forall c :: !Points(s, c, p))
  {
    RunKeeps(run, t);
    var s := run[t];
    assert ProcOk(s, p) && OnOk(s, p);
    forall c | Points(s, c, p) ensures PointsHow(s, c, p) {
      PointsFacts(s, c, p);
    }
    hide Inv;
    if s.procs[p].state.RUNNING? {
      RunsThere(s, p);
    }
    forall c, d | Points(s, c, p) && Points(s, d, p) ensures c == d {
      assert PointsHow(s, c, p) && PointsHow(s, d, p);
      BothPoint(s, c, d, p);
    }
    assert forall c | 0 <= c < |s.cpus| && s.cpus[c].run >= 0 :: s.cpus[c].proc == s.cpus[c].run by {
      MyProc(s);
    }
  }

  /** Either the thread of p runs on c, or c's scheduler is back from p and has its lock. */
  ghost predicate PointsHow(s: State, c: nat, p: nat)
    requires p < |s.procs|
  {
    && Points(s, c, p)
    && (if s.cpus[c].run >= 0
        then s.procs[p].on == c
             && (s.procs[p].state.RUNNING? || (s.procs[p].state.ZOMBIE? && Holder(s, ProcLock(p)) == c))
        else s.procs[p].on == -1 && Holder(s, ProcLock(p)) == c)
  }

  lemma PointsFacts(s: State, c: nat, p: nat)
    requires Inv(s) && p < |s.procs| && Points(s, c, p)
    ensures PointsHow(s, c, p)
  {
    assert CpuOk(s, c) && ProcOk(s, p);
    hide ThreadsInv, FamilyInv, WakeupsInv, PidsInv;
    assert Holder(s, ProcLock(p)) == c <==> CpuLocked(s, c, ProcLock(p));
  }

  lemma BothPoint(s: State, c: nat, d: nat, p: nat)
    requires p < |s.procs| && PointsHow(s, c, p) && PointsHow(s, d, p)
    ensures c == d
  {
  }

  lemma RunsThere(s: State, p: nat)
    requires Inv(s) && p < |s.procs| && s.procs[p].state.RUNNING?
    ensures exists c :: Points(s, c, p)
  {
    assert ProcOk(s, p) && OnOk(s, p);
    assert CpuOk(s, s.procs[p].on);
    assert Points(s, s.procs[p].on, p);
  }

  lemma MyProc(s: State)
    requires Inv(s)
    ensures forall c | 0 <= c < |s.cpus| && s.cpus[c].run >= 0 :: s.cpus[c].proc == s.cpus[c].run
  {
    forall c | 0 <= c < |s.cpus| && s.cpus[c].run >= 0 ensures s.cpus[c].proc == s.cpus[c].run {
      assert CpuOk(s, c);
    }
  }

  /** kwait never frees a process that still executes: no CPU runs it or points to it. */
  lemma FreedIsOff(run: seq<State>, t: nat, p: nat, i: nat, c: nat)
    requires IsRun(run) && t < |run| && p < |run[t].procs| && c < |run[t].cpus|
    requires run[t].procs[p].pc == ReapBody(i)
    ensures var s := run[t];
            i < |s.procs| && s.procs[i].state.ZOMBIE? && s.cpus[c].run != i && s.cpus[c].proc != i
  {
    RunKeeps(run, t);
    var s := run[t];
    assert PcOk(s, p) && ProcOk(s, p) && OnOk(s, p);
    assert CpuOk(s, c);
    var d := s.procs[p].on;
    assert CpuLocked(s, d, ProcLock(i)) <==> Holder(s, ProcLock(i)) == d;
    assert CpuOk(s, d);
    if Points(s, c, i) {
      PointsFacts(s, c, i);
    }
  }

  /**
   The family of processes: a parent is a live process, every live process but init has a
   parent, and so has every zombie while wait_lock is free; live pids are distinct and below
   nextpid; an unused slot is as clean as freeproc left it.
   */
  lemma Family(run: seq<State>, t: nat, p: nat)
    requires IsRun(run) && t < |run| && p < |run[t].procs|
    ensures var (s, q) := (run[t], run[t].procs[p]);
            && (q.parent >= 0 ==> q.parent < |s.procs| && Alive(s.procs[q.parent]))
            && (Alive(q) && p != s.init ==> q.parent >= 0)
            && (q.state.ZOMBIE? && Holder(s, WaitLock) == -1 ==> q.parent >= 0)
            && (!q.state.UNUSED? ==> 0 < q.pid < s.nextpid)
            && (q.state.UNUSED? ==> q == UNUSED_SLOT)
            && (forall x | 0 <= x < |s.procs| && x != p && !q.state.UNUSED? && !s.procs[x].state.UNUSED? ::
                  s.procs[x].pid != q.pid)
  {
    RunKeeps(run, t);
    assert ProcOk(run[t], p) && FamilyOk(run[t], p);
    hide LocksInv, CpusInv, ThreadsInv, WakeupsInv;
  }

  /** The thread is about to call swtch in sched. */
  predicate AtSched(q: ProcSlot) {
    || q.intr.YieldBody?
    || (q.intr.NoYield? && (q.pc.ExitSched? || q.pc.SleepBody?))
  }

  /** sched is reached with p->lock and no other lock: two of its panics cannot happen. */
  lemma SchedHoldsOwnLock(run: seq<State>, t: nat, c: nat, l: LockId)
    requires IsRun(run) && t < |run| && c < |run[t].cpus| && run[t].cpus[c].run >= 0
    ensures run[t].cpus[c].run < |run[t].procs|
    ensures AtSched(run[t].procs[run[t].cpus[c].run]) ==>
              (Holder(run[t], l) == c <==> l == ProcLock(run[t].cpus[c].run))
  {
    RunKeeps(run, t);
    assert CpuOk(run[t], c);
    hide ThreadsInv, FamilyInv, WakeupsInv, PidsInv;
    assert Holder(run[t], l) == c <==> CpuLocked(run[t], c, l);
  }

  // ----------------------------------------------------------------- lock order

  /** wait_lock comes before p->lock, which comes before pid_lock and kmem.lock. */
  function Rank(l: LockId): nat {
    match l
    case WaitLock => 0
    case ProcLock(_) => 1
    case _ => 2
  }

  /** The lock that CPU c waits for. */
  function Wanted(s: State, c: nat): Option<LockId> {
    if c >= |s.cpus| then None
    else if 0 <= s.cpus[c].run < |s.procs| then Want(s.procs[s.cpus[c].run], s.cpus[c].run, |s.procs|)
    else if s.cpus[c].pc.Pick? then Some(ProcLock(s.cpus[c].pc.i))
    else None
  }

  /** CPU c waits for a lock that CPU d holds. */
  predicate WaitsFor(s: State, c: nat, d: nat) {
    Wanted(s, c).Some? && Holder(s, Wanted(s, c).value) == d
  }

  lemma WantRank(q: ProcSlot, p: nat, n: nat, l: LockId)
    requires Want(q, p, n).Some? && ThreadLocked(q, p, l)
    ensures Rank(l) < Rank(Want(q, p, n).value)
  {
  }

  /** A CPU that holds l and waits for another lock waits for one of higher rank. */
  lemma Order(s: State, c: nat, d: nat)
    requires Inv(s) && d < |s.cpus| && WaitsFor(s, c, d) && Wanted(s, d).Some?
    ensures Rank(Wanted(s, c).value) < Rank(Wanted(s, d).value)
  {
    var l := Wanted(s, c).value;
    assert CpuOk(s, d);
    assert Holder(s, l) == d <==> CpuLocked(s, d, l);
    hide Inv, Want, ThreadLocked, Rank;
    if 0 <= s.cpus[d].run < |s.procs| {
      WantRank(s.procs[s.cpus[d].run], s.cpus[d].run, |s.procs|, l);
    }
  }

  /** Each of these CPUs waits for a lock that the next one holds. */
  ghost predicate WaitChain(s: State, cs: seq<nat>) {
    && (forall k | 0 <= k < |cs| :: cs[k] < |s.cpus| && Wanted(s, cs[k]).Some?)
    && (forall k | 0 <= k < |cs| - 1 :: WaitsFor(s, cs[k], cs[k + 1]))
  }

  lemma {:induction false} ChainRanks(s: State, cs: seq<nat>, k: nat)
    requires Inv(s) && WaitChain(s, cs) && k < |cs|
    ensures Rank(Wanted(s, cs[0]).value) + k <= Rank(Wanted(s, cs[k]).value)
  {
    if k > 0 {
      ChainRanks(s, cs, k - 1);
      assert WaitsFor(s, cs[k - 1], cs[k - 1 + 1]);
      Order(s, cs[k - 1], cs[k]);
    }
  }

  /**
   No deadlock: in no reachable state does a set of CPUs wait for each other in a circle,
   and no chain of waiting CPUs is longer than three.
   */
  lemma NoDeadlock(run: seq<State>, t: nat, cs: seq<nat>)
    requires IsRun(run) && t < |run| && cs != [] && WaitChain(run[t], cs)
    ensures !WaitsFor(run[t], cs[|cs| - 1], cs[0])
    ensures |cs| <= 3
  {
    RunKeeps(run, t);
    ChainRanks(run[t], cs, |cs| - 1);
    if WaitsFor(run[t], cs[|cs| - 1], cs[0]) {
      Order(run[t], cs[|cs| - 1], cs[0]);
    }
  }

  // ------------------------------------------------------------------- progress

  ghost predicate CanStep(s: State, c: nat) {
    exists a: Act, s': State :: Step(s, s', c, a)
  }

  /** A thread on a CPU is at User, or wants a lock, or lets one go, or has work to do. */
  lemma Busy(s: State, p: nat)
    requires p < |s.procs| && ProcOk(s, p) && PcOk(s, p) && s.procs[p].on >= 0 && s.procs[p].intr.NoYield?
    ensures var q := s.procs[p];
            q.pc.User? || Want(q, p, |s.procs|).Some? || Lets(q, p).Some? || Works(q.pc, |s.procs|)
  {
  }

  lemma ThreadCan(s: State, c: nat)
    requires Inv(s) && c < |s.cpus| && s.cpus[c].run >= 0
    ensures CanStep(s, c) || (Wanted(s, c).Some? && Holder(s, Wanted(s, c).value) >= 0)
  {
    var p := s.cpus[c].run;
    assert CpuOk(s, c);
    assert ProcOk(s, p) && PcOk(s, p);
    var me := s.procs[p];
    hide Inv, ProcOk, PcOk, CpuOk, Work, Works, Want, Lets, Got, Gone;
    WantYieldOk(me, p, |s.procs|);
    if me.intr.YieldBody? {
      assert Step(s, Switch(Upd(s, p, me.(state := RUNNABLE, intr := YieldBack)), c, p), c, YieldSwitch);
    } else if Want(me, p, |s.procs|).Some? {
      var l := Want(me, p, |s.procs|).value;
      if Holder(s, l) == -1 {
        var t := Take(s, l, c);
        assert Step(s, if me.intr.YieldAcq? then Upd(t, p, t.procs[p].(intr := YieldBody))
                       else Goto(t, p, Got(me.pc)), c, Acquire);
      }
    } else if Lets(me, p).Some? {
      var t := Free(s, Lets(me, p).value);
      assert Step(s, if me.intr.YieldBack? then Upd(t, p, t.procs[p].(intr := NoYield))
                     else Goto(t, p, Gone(me.pc)), c, Release);
    } else {
      Busy(s, p);
      if me.pc.User? {
        assert Step(s, Goto(s, p, WaitAcq), c, Start(WaitAcq));
      } else {
        assert Step(s, Work(s, c, p, true), c, Body(true));
      }
    }
  }

  lemma WantYieldOk(q: ProcSlot, p: nat, n: nat)
    ensures q.intr.YieldAcq? ==> Want(q, p, n).Some?
    ensures q.intr.YieldBack? ==> Lets(q, p).Some? && Want(q, p, n).None?
    ensures q.intr.YieldBody? ==> Want(q, p, n).None?
  {
  }

  lemma SchedCan(s: State, c: nat)
    requires Inv(s) && c < |s.cpus| && s.cpus[c].run < 0
    ensures CanStep(s, c) || (Wanted(s, c).Some? && Holder(s, Wanted(s, c).value) >= 0)
  {
    assert CpuOk(s, c);
    hide Inv;
    var u := s.cpus[c];
    match u.pc {
      case Pick(i) =>
        if Holder(s, ProcLock(i)) == -1 {
          assert Step(s, Take(s, ProcLock(i), c).(cpus := s.cpus[c := u.(pc := Test(i))]), c, Sched);
        }
      case Test(i) =>
        assert Step(s, if s.procs[i].state.RUNNABLE?
                       then Upd(s, i, s.procs[i].(state := RUNNING, on := c)).(cpus := s.cpus[c := Cpu(i, i, Back(i))])
                       else s.(cpus := s.cpus[c := u.(pc := Leave(i))]), c, Sched);
      case Back(i) =>
        assert Step(s, s.(cpus := s.cpus[c := u.(proc := -1, pc := Leave(i))]), c, Sched);
      case Leave(i) =>
        var next := if i + 1 < |s.procs| then i + 1 else 0;
        assert Step(s, Free(s, ProcLock(i)).(cpus := s.cpus[c := u.(pc := Pick(next))]), c, Sched);
    }
  }

  function Height(s: State, c: nat): nat {
    if Wanted(s, c).Some? then 3 - Rank(Wanted(s, c).value) else 0
  }

  /** CPU c, or one that it waits for in the end, can go on. */
  lemma {:induction false} SomeoneGoesOn(s: State, c: nat)
    requires Inv(s) && c < |s.cpus|
    ensures exists d: nat :: d < |s.cpus| && CanStep(s, d)
    decreases Height(s, c)
  {
    if s.cpus[c].run >= 0 {
      ThreadCan(s, c);
    } else {
      SchedCan(s, c);
    }
    if !CanStep(s, c) {
      var l := Wanted(s, c).value;
      var d := Holder(s, l);
      assert l in s.locks && d < |s.cpus|;
      if !CanStep(s, d) {
        if s.cpus[d].run >= 0 {
          ThreadCan(s, d);
        } else {
          SchedCan(s, d);
        }
        Order(s, c, d);
        SomeoneGoesOn(s, d);
      }
    }
  }

  /** In every reachable state of a machine with a CPU, some CPU can take a step. */
  lemma NeverStuck(run: seq<State>, t: nat)
    requires IsRun(run) && t < |run| && run[t].cpus != []
    ensures exists d: nat :: d < |run[t].cpus| && CanStep(run[t], d)
  {
    RunKeeps(run, t);
    SomeoneGoesOn(run[t], 0);
  }
}
