/**
 Every step of the protocol keeps the invariant: the steps that make processes, and those
 that change the family of processes.
 */
module ProtocolFamily {
  import opened Protocol
  import opened ProtocolInv
  import opened ProtocolSteps
  import opened ProtocolProofs

  // --------------------------------------------------------------- a new process

  lemma PidBodyMoves(s: State, c: nat, p: nat, i: nat, ok: bool)
    requires LocksInv(s) && At(s, c, p, PidBody(i)) && i < |s.procs| && i != p
    requires s.procs[i] == UNUSED_SLOT
    ensures LockStep(s, ForkWork(s, p, ok), c) && Holder(s, ProcLock(i)) == c
    ensures Holder(ForkWork(s, p, ok), WaitLock) == Holder(s, WaitLock)
  {
    Holding(s, c, p);
    hide LockStep, LocksInv;
    assert Holder(s, ProcLock(i)) == c <==> ThreadLocked(s.procs[p], p, ProcLock(i));
    AfterRelease(s, ForkWork(s, p, ok), c, p, PidLock);
  }

  lemma PidBodyOrderly(s: State, c: nat, p: nat, i: nat, ok: bool)
    requires At(s, c, p, PidBody(i)) && i < |s.procs| && i != p && s.procs[i] == UNUSED_SLOT
    requires Holder(s, ProcLock(i)) == c
    ensures Orderly(s, ForkWork(s, p, ok), c, p, i)
  {
  }

  lemma PidBodySlots(s: State, c: nat, p: nat, i: nat, ok: bool)
    requires At(s, c, p, PidBody(i)) && i < |s.procs| && i != p && s.procs[i] == UNUSED_SLOT
    requires ProcOk(s, p) && PcOk(s, p) && s.procs[p].on == c
    ensures InOrder(s, ForkWork(s, p, ok), p, i)
    ensures Calm(s, ForkWork(s, p, ok), p) && Calm(s, ForkWork(s, p, ok), i)
  {
  }

  lemma NewPid(s: State, c: nat, p: nat, i: nat, ok: bool)
    requires PidsInv(s) && ThreadsInv(s) && At(s, c, p, PidBody(i)) && i < |s.procs| && i != p
    ensures PidsInv(ForkWork(s, p, ok))
  {
    forall x | 0 <= x < |s.procs| ensures !s.procs[x].state.UNUSED? ==> s.procs[x].pid < s.nextpid {
      assert ProcOk(s, x);
    }
    hide ThreadsInv;
  }

  lemma KeepsPidBody(s: State, c: nat, p: nat, i: nat, ok: bool)
    requires Inv(s) && At(s, c, p, PidBody(i)) && i < |s.procs|
    ensures Inv(ForkWork(s, p, ok))
  {
    hide CpusInv, LocksInv, ThreadsInv, FamilyInv, WakeupsInv, PidsInv, ProcOk, PcOk, FamilyOk;
    Facts(s, c, p, i);
    hide *;
    var s' := ForkWork(s, p, ok);
    TakenSlot(s, c, p, i);
    NoWaitAt(s.procs[p].pc);
    PidBodyMoves(s, c, p, i, ok);
    PidBodyOrderly(s, c, p, i, ok);
    PidBodySlots(s, c, p, i, ok);
    OrderlyStep(s, s', c, p, i);
    LocalOf(s, s', c, p, i);
    UnreliedWaiter(s, s', c, p, i);
    CalmFrame(s, s', c, p, i);
    NewPid(s, c, p, i, ok);
  }

  lemma TakenSlot(s: State, c: nat, p: nat, i: nat)
    requires At(s, c, p, PidBody(i)) && i < |s.procs| && PcOk(s, p) && ProcOk(s, p)
    requires CleanWhenUnused(s, i)
    ensures s.procs[i] == UNUSED_SLOT && i != p && s.procs[p].intr.NoYield? && s.procs[p].pc == PidBody(i)
  {
  }

  lemma LocalOf(s: State, s': State, c: nat, p: nat, i: int)
    requires Orderly(s, s', c, p, i)
    ensures Local(s, s', c, p, i) && StepFrame(s, s', c, p)
  {
  }

  /** A thread without wait_lock, at any program point. */
  lemma UnreliedWaiter(s: State, s': State, c: nat, p: nat, i: int)
    requires CpusInv(s) && Orderly(s, s', c, p, i) && s.procs[p].intr.NoYield? && !HasWait(s.procs[p].pc)
    requires (Holder(s, WaitLock) == c <==> HasWait(s.procs[p].pc)) && Holder(s', WaitLock) == Holder(s, WaitLock)
    ensures WaiterOk(s, s')
  {
    WaiterKept(s, s', c, p);
  }

  lemma MemBodyMoves(s: State, c: nat, p: nat, i: nat)
    requires LocksInv(s) && At(s, c, p, MemBody(i)) && i < |s.procs| && i != p
    ensures LockStep(s, ForkWork(s, p, true), c)
    ensures Holder(ForkWork(s, p, true), WaitLock) == Holder(s, WaitLock)
  {
    hide LockStep, LocksInv;
    AfterRelease(s, ForkWork(s, p, true), c, p, MemLock);
  }

  lemma MemBodyOrderly(s: State, c: nat, p: nat, i: nat)
    requires At(s, c, p, MemBody(i)) && i < |s.procs| && i != p && PcOk(s, p) && ProcOk(s, i)
    ensures Orderly(s, ForkWork(s, p, true), c, p, i)
  {
  }

  lemma MemBodySlots(s: State, c: nat, p: nat, i: nat)
    requires At(s, c, p, MemBody(i)) && i < |s.procs| && i != p && ProcOk(s, i)
    requires ProcOk(s, p) && PcOk(s, p) && s.procs[p].on == c
    ensures var s' := ForkWork(s, p, true);
            && InOrder(s, s', p, i) && Calm(s, s', p) && Calm(s, s', i) && PidCalm(s, s', p) && PidCalm(s, s', i)
  {
  }

  lemma KeepsMemBody(s: State, c: nat, p: nat, i: nat)
    requires Inv(s) && At(s, c, p, MemBody(i)) && i < |s.procs|
    ensures Inv(ForkWork(s, p, true))
  {
    hide CpusInv, LocksInv, ThreadsInv, FamilyInv, WakeupsInv, PidsInv, ProcOk, PcOk, FamilyOk;
    Facts(s, c, p, i);
    NotOwn(s, p, i);
    hide *;
    var s' := ForkWork(s, p, true);
    MemBodyMoves(s, c, p, i);
    MemBodyOrderly(s, c, p, i);
    MemBodySlots(s, c, p, i);
    NoWaitAt(s.procs[p].pc);
    UnreliedWaiter(s, s', c, p, i);
    CalmStep(s, s', c, p, i);
  }

  /** The slot that a thread works on is not its own. */
  lemma NotOwn(s: State, p: nat, i: nat)
    requires p < |s.procs| && ProcOk(s, p) && PcOk(s, p)
    requires var pc := s.procs[p].pc;
             pc == MemBody(i) || pc == FailBody(i) || pc == ParentBody(i) || pc == RunBody(i) || pc == ReapBody(i)
    ensures i != p && i < |s.procs|
  {
  }

  lemma NoWaitAt(pc: Pc)
    ensures pc.PidBody? || pc.MemBody? || pc.FailBody? || pc.RunBody? ==> !HasWait(pc)
  {
  }

  lemma FailBodyMoves(s: State, c: nat, p: nat, i: nat, ok: bool)
    requires LocksInv(s) && At(s, c, p, FailBody(i)) && i < |s.procs| && i != p
    ensures LockStep(s, ForkWork(s, p, ok), c)
    ensures Holder(ForkWork(s, p, ok), WaitLock) == Holder(s, WaitLock)
  {
    hide LockStep, LocksInv;
    AfterRelease(s, ForkWork(s, p, ok), c, p, MemLock);
  }

  lemma FailBodyOrderly(s: State, c: nat, p: nat, i: nat, ok: bool)
    requires At(s, c, p, FailBody(i)) && i < |s.procs| && i != p && PcOk(s, p) && ProcOk(s, i)
    ensures Orderly(s, ForkWork(s, p, ok), c, p, i)
  {
  }

  lemma FailBodySlots(s: State, c: nat, p: nat, i: nat, ok: bool)
    requires At(s, c, p, FailBody(i)) && i < |s.procs| && i != p && ProcOk(s, i)
    requires ProcOk(s, p) && PcOk(s, p) && s.procs[p].on == c
    ensures var s' := ForkWork(s, p, ok);
            && InOrder(s, s', p, i) && Calm(s, s', p) && Calm(s, s', i) && PidCalm(s, s', p) && PidCalm(s, s', i)
  {
  }

  lemma KeepsFailBody(s: State, c: nat, p: nat, i: nat, ok: bool)
    requires Inv(s) && At(s, c, p, FailBody(i)) && i < |s.procs|
    ensures Inv(ForkWork(s, p, ok))
  {
    hide CpusInv, LocksInv, ThreadsInv, FamilyInv, WakeupsInv, PidsInv, ProcOk, PcOk, FamilyOk;
    Facts(s, c, p, i);
    NotOwn(s, p, i);
    hide *;
    var s' := ForkWork(s, p, ok);
    FailBodyMoves(s, c, p, i, ok);
    FailBodyOrderly(s, c, p, i, ok);
    FailBodySlots(s, c, p, i, ok);
    NoWaitAt(s.procs[p].pc);
    UnreliedWaiter(s, s', c, p, i);
    CalmStep(s, s', c, p, i);
  }

  lemma RunBodyMoves(s: State, c: nat, p: nat, i: nat, ok: bool)
    requires LocksInv(s) && At(s, c, p, RunBody(i)) && i < |s.procs| && i != p
    ensures LockStep(s, ForkWork(s, p, ok), c)
    ensures Holder(ForkWork(s, p, ok), WaitLock) == Holder(s, WaitLock)
  {
    hide LockStep, LocksInv;
    AfterRelease(s, ForkWork(s, p, ok), c, p, ProcLock(i));
  }

  lemma RunBodyOrderly(s: State, c: nat, p: nat, i: nat, ok: bool)
    requires At(s, c, p, RunBody(i)) && i < |s.procs| && i != p && PcOk(s, p) && ProcOk(s, i)
    ensures Orderly(s, ForkWork(s, p, ok), c, p, i)
  {
  }

  lemma RunBodySlots(s: State, c: nat, p: nat, i: nat, ok: bool)
    requires At(s, c, p, RunBody(i)) && i < |s.procs| && i != p && ProcOk(s, i)
    requires ProcOk(s, p) && PcOk(s, p) && s.procs[p].on == c
    ensures var s' := ForkWork(s, p, ok);
            && InOrder(s, s', p, i) && Calm(s, s', p) && Calm(s, s', i) && PidCalm(s, s', p) && PidCalm(s, s', i)
  {
  }

  lemma KeepsRunBody(s: State, c: nat, p: nat, i: nat, ok: bool)
    requires Inv(s) && At(s, c, p, RunBody(i)) && i < |s.procs|
    ensures Inv(ForkWork(s, p, ok))
  {
    hide CpusInv, LocksInv, ThreadsInv, FamilyInv, WakeupsInv, PidsInv, ProcOk, PcOk, FamilyOk;
    Facts(s, c, p, i);
    NotOwn(s, p, i);
    hide *;
    var s' := ForkWork(s, p, ok);
    RunBodyMoves(s, c, p, i, ok);
    RunBodyOrderly(s, c, p, i, ok);
    RunBodySlots(s, c, p, i, ok);
    NoWaitAt(s.procs[p].pc);
    UnreliedWaiter(s, s', c, p, i);
    CalmStep(s, s', c, p, i);
  }

  // -------------------------------------------------------- np->parent = p

  lemma ParentMoves(s: State, c: nat, p: nat, i: nat, ok: bool)
    requires LocksInv(s) && At(s, c, p, ParentBody(i)) && i < |s.procs| && i != p
    ensures LockStep(s, ForkWork(s, p, ok), c)
  {
    hide LockStep, LocksInv;
    AfterRelease(s, ForkWork(s, p, ok), c, p, WaitLock);
  }

  lemma ParentOrderly(s: State, c: nat, p: nat, i: nat, ok: bool)
    requires At(s, c, p, ParentBody(i)) && i < |s.procs| && i != p && PcOk(s, p) && ProcOk(s, i)
    requires Holder(s, WaitLock) == c
    ensures Orderly(s, ForkWork(s, p, ok), c, p, i)
  {
  }

  lemma ParentSlots(s: State, c: nat, p: nat, i: nat, ok: bool)
    requires At(s, c, p, ParentBody(i)) && i < |s.procs| && i != p && ProcOk(s, i)
    requires ProcOk(s, p) && PcOk(s, p) && s.procs[p].on == c
    ensures var s' := ForkWork(s, p, ok); InOrder(s, s', p, i) && PidCalm(s, s', p) && PidCalm(s, s', i)
  {
  }

  lemma ParentFamily(s: State, c: nat, p: nat, i: nat, ok: bool)
    requires FamilyInv(s) && WakeupsInv(s) && At(s, c, p, ParentBody(i)) && i < |s.procs| && i != p
    requires ProcOk(s, p) && PcOk(s, p) && s.procs[p].on == c && Holder(s, WaitLock) == c
    ensures FamilyInv(ForkWork(s, p, ok)) && WakeupsInv(ForkWork(s, p, ok))
  {
    var s' := ForkWork(s, p, ok);
    forall z | 0 <= z < |s'.procs| ensures FamilyOk(s', z) && NotLost(s', z) {
      assert FamilyOk(s, z) && NotLost(s, z);
    }
  }

  lemma KeepsParentBody(s: State, c: nat, p: nat, i: nat, ok: bool)
    requires Inv(s) && At(s, c, p, ParentBody(i)) && i < |s.procs|
    ensures Inv(ForkWork(s, p, ok))
  {
    hide CpusInv, LocksInv, ThreadsInv, FamilyInv, WakeupsInv, PidsInv, ProcOk, PcOk, FamilyOk;
    Facts(s, c, p, i);
    NotOwn(s, p, i);
    hide *;
    var s' := ForkWork(s, p, ok);
    WaitAt(s.procs[p].pc);
    ParentMoves(s, c, p, i, ok);
    ParentOrderly(s, c, p, i, ok);
    ParentSlots(s, c, p, i, ok);
    OrderlyStep(s, s', c, p, i);
    LocalOf(s, s', c, p, i);
    ParentFamily(s, c, p, i, ok);
    PidsFrame(s, s', c, p, i);
  }

  lemma WaitAt(pc: Pc)
    ensures pc.ParentBody? || pc.Reparent? || pc.ZombieBody? || pc.ChildBody? || pc.ReapBody? ==> HasWait(pc)
    ensures pc.PrepBody? && pc.w.InWait? ==> HasWait(pc)
  {
  }

  // ------------------------------------------------------------------- reparent

  lemma AdoptMoves(s: State, c: nat, p: nat, i: nat)
    requires LocksInv(s) && At(s, c, p, Reparent(i)) && i < |s.procs| && s.procs[i].parent == p
    ensures LockStep(s, ExitWork(s, c, p), c)
  {
    hide LockStep, LocksInv;
    Unreleased(s, ExitWork(s, c, p), c, p);
  }

  lemma AdoptOrderly(s: State, c: nat, p: nat, i: nat)
    requires At(s, c, p, Reparent(i)) && i < |s.procs| && s.procs[i].parent == p && ProcOk(s, i)
    requires Holder(s, WaitLock) == c
    ensures Orderly(s, ExitWork(s, c, p), c, p, Other(p, i))
  {
  }

  lemma AdoptSlots(s: State, c: nat, p: nat, i: nat)
    requires At(s, c, p, Reparent(i)) && i < |s.procs| && s.procs[i].parent == p && ProcOk(s, i)
    requires ProcOk(s, p) && PcOk(s, p) && s.procs[p].on == c && s.init < |s.procs|
    ensures var s' := ExitWork(s, c, p); InOrder(s, s', p, Other(p, i)) && PidCalm(s, s', p) && PidCalm(s, s', i)
  {
  }

  lemma AdoptFamily(s: State, c: nat, p: nat, i: nat)
    requires FamilyInv(s) && WakeupsInv(s) && At(s, c, p, Reparent(i)) && i < |s.procs| && s.procs[i].parent == p
    requires ProcOk(s, p) && PcOk(s, p) && s.procs[p].on == c && Holder(s, WaitLock) == c
    ensures FamilyInv(ExitWork(s, c, p)) && WakeupsInv(ExitWork(s, c, p))
  {
    var s' := ExitWork(s, c, p);
    forall z | 0 <= z < |s'.procs| ensures FamilyOk(s', z) && NotLost(s', z) {
      assert FamilyOk(s, z) && NotLost(s, z);
    }
  }

  lemma KeepsAdopt(s: State, c: nat, p: nat, i: nat)
    requires Inv(s) && At(s, c, p, Reparent(i)) && i < |s.procs| && s.procs[i].parent == p
    ensures Inv(ExitWork(s, c, p))
  {
    hide CpusInv, LocksInv, ThreadsInv, FamilyInv, WakeupsInv, PidsInv, ProcOk, PcOk, FamilyOk;
    Facts(s, c, p, i);
    hide *;
    var s' := ExitWork(s, c, p);
    WaitAt(s.procs[p].pc);
    AdoptMoves(s, c, p, i);
    AdoptOrderly(s, c, p, i);
    AdoptSlots(s, c, p, i);
    OrderlyStep(s, s', c, p, Other(p, i));
    LocalOf(s, s', c, p, Other(p, i));
    AdoptFamily(s, c, p, i);
    OtherPids(s, s', p, i);
    PidsFrame(s, s', c, p, Other(p, i));
  }

  lemma OtherPids(s: State, s': State, p: nat, i: nat)
    requires p < |s.procs| == |s'.procs| && i < |s.procs| && PidCalm(s, s', i)
    ensures Other(p, i) >= 0 ==> PidCalm(s, s', Other(p, i))
  {
  }

  // ------------------------------------------------------------ p->state = ZOMBIE

  lemma ZombieMoves(s: State, c: nat, p: nat)
    requires LocksInv(s) && At(s, c, p, ZombieBody) && Holder(s, WaitLock) == c
    ensures LockStep(s, ExitWork(s, c, p), c)
  {
    hide LockStep, LocksInv;
    Unreleased(s, ExitWork(s, c, p), c, p);
  }

  lemma ZombieSlots(s: State, c: nat, p: nat)
    requires At(s, c, p, ZombieBody) && ProcOk(s, p) && PcOk(s, p) && s.procs[p].on == c
    ensures InOrder(s, ExitWork(s, c, p), p, -1) && PidCalm(s, ExitWork(s, c, p), p)
  {
  }

  lemma ZombieFamily(s: State, c: nat, p: nat)
    requires FamilyInv(s) && WakeupsInv(s) && At(s, c, p, ZombieBody)
    requires ProcOk(s, p) && PcOk(s, p) && s.procs[p].on == c && Holder(s, WaitLock) == c
    ensures FamilyInv(ExitWork(s, c, p)) && WakeupsInv(ExitWork(s, c, p))
  {
    var s' := ExitWork(s, c, p);
    forall z | 0 <= z < |s'.procs| ensures FamilyOk(s', z) && NotLost(s', z) {
      assert FamilyOk(s, z) && NotLost(s, z);
    }
  }

  lemma KeepsZombieBody(s: State, c: nat, p: nat)
    requires Inv(s) && At(s, c, p, ZombieBody)
    ensures Inv(ExitWork(s, c, p))
  {
    hide CpusInv, LocksInv, ThreadsInv, FamilyInv, WakeupsInv, PidsInv, ProcOk, PcOk, FamilyOk;
    Facts(s, c, p, -1);
    hide *;
    var s' := ExitWork(s, c, p);
    WaitAt(s.procs[p].pc);
    ZombieMoves(s, c, p);
    ZombieSlots(s, c, p);
    OrderlyStep(s, s', c, p, -1);
    LocalOf(s, s', c, p, -1);
    ZombieFamily(s, c, p);
    PidsFrame(s, s', c, p, -1);
  }

  // -------------------------------------------------------- reaping a zombie

  /** The zombie whose lock kwait has acquired has left its CPU: freeproc may have it. */
  lemma OffCpu(s: State, c: nat, p: nat, i: nat)
    requires CpusInv(s) && LocksInv(s) && ThreadsInv(s) && At(s, c, p, ChildBody(i)) && i < |s.procs|
    requires s.procs[i].state.ZOMBIE? && ProcOk(s, p)
    ensures s.procs[i].on == -1 && i != p
  {
    assert ProcOk(s, i);
    assert CpuOk(s, c);
    assert OnOk(s, i);
    if s.procs[i].on >= 0 {
      Exclusive(s, c, p, i, ProcLock(i));
    }
  }

  lemma ReapMoves(s: State, c: nat, p: nat, i: nat)
    requires LocksInv(s) && At(s, c, p, ChildBody(i)) && i < |s.procs| && i != p
    requires s.procs[i].state.ZOMBIE? && Holder(s, WaitLock) == c
    ensures LockStep(s, WaitWork(s, p, true), c)
  {
    hide LockStep, LocksInv;
    Unreleased(s, WaitWork(s, p, true), c, p);
  }

  lemma ReapOrderly(s: State, c: nat, p: nat, i: nat)
    requires At(s, c, p, ChildBody(i)) && i < |s.procs| && i != p && PcOk(s, p) && ProcOk(s, i)
    requires s.procs[i].state.ZOMBIE? && Holder(s, WaitLock) == c
    ensures Orderly(s, WaitWork(s, p, true), c, p, i)
  {
  }

  lemma ReapSlots(s: State, c: nat, p: nat, i: nat)
    requires At(s, c, p, ChildBody(i)) && i < |s.procs| && i != p && ProcOk(s, i)
    requires s.procs[i].state.ZOMBIE? && s.procs[i].on == -1
    requires ProcOk(s, p) && PcOk(s, p) && s.procs[p].on == c
    ensures var s' := WaitWork(s, p, true); InOrder(s, s', p, i) && PidCalm(s, s', p) && PidCalm(s, s', i)
  {
  }

  lemma ReapFamily(s: State, c: nat, p: nat, i: nat)
    requires FamilyInv(s) && WakeupsInv(s) && At(s, c, p, ChildBody(i)) && i < |s.procs| && i != p
    requires s.procs[i].state.ZOMBIE? && Holder(s, WaitLock) == c
    ensures FamilyInv(WaitWork(s, p, true)) && WakeupsInv(WaitWork(s, p, true))
  {
    var s' := WaitWork(s, p, true);
    forall z | 0 <= z < |s'.procs| ensures FamilyOk(s', z) && NotLost(s', z) {
      assert FamilyOk(s, z) && NotLost(s, z);
    }
  }

  lemma KeepsReap(s: State, c: nat, p: nat, i: nat)
    requires Inv(s) && At(s, c, p, ChildBody(i)) && i < |s.procs| && s.procs[i].state.ZOMBIE?
    ensures Inv(WaitWork(s, p, true))
  {
    hide CpusInv, LocksInv, ThreadsInv, FamilyInv, WakeupsInv, PidsInv, ProcOk, PcOk, FamilyOk;
    Facts(s, c, p, i);
    hide *;
    var s' := WaitWork(s, p, true);
    WaitAt(s.procs[p].pc);
    OffCpu(s, c, p, i);
    ReapMoves(s, c, p, i);
    ReapOrderly(s, c, p, i);
    ReapSlots(s, c, p, i);
    OrderlyStep(s, s', c, p, i);
    LocalOf(s, s', c, p, i);
    ReapFamily(s, c, p, i);
    PidsFrame(s, s', c, p, i);
  }

  lemma FreedMoves(s: State, c: nat, p: nat, i: nat, ok: bool)
    requires LocksInv(s) && At(s, c, p, ReapBody(i)) && i < |s.procs| && i != p
    requires PcOk(s, p) && ProcOk(s, i) && Holder(s, WaitLock) == c
    ensures LockStep(s, WaitWork(s, p, ok), c) && Orderly(s, WaitWork(s, p, ok), c, p, i)
  {
    hide LockStep, LocksInv;
    AfterRelease(s, WaitWork(s, p, ok), c, p, MemLock);
  }

  lemma FreedSlots(s: State, c: nat, p: nat, i: nat, ok: bool)
    requires At(s, c, p, ReapBody(i)) && i < |s.procs| && i != p && ProcOk(s, i)
    requires ProcOk(s, p) && PcOk(s, p) && s.procs[p].on == c
    ensures var s' := WaitWork(s, p, ok); InOrder(s, s', p, i) && PidCalm(s, s', p) && PidCalm(s, s', i)
  {
  }

  lemma FreedFamily(s: State, c: nat, p: nat, i: nat, ok: bool)
    requires FamilyInv(s) && WakeupsInv(s) && At(s, c, p, ReapBody(i)) && i < |s.procs| && i != p
    requires PcOk(s, p) && Holder(s, WaitLock) == c
    ensures FamilyInv(WaitWork(s, p, ok)) && WakeupsInv(WaitWork(s, p, ok))
  {
    var s' := WaitWork(s, p, ok);
    forall z | 0 <= z < |s'.procs| ensures FamilyOk(s', z) && NotLost(s', z) {
      assert FamilyOk(s, z) && NotLost(s, z);
    }
  }

  lemma KeepsReapBody(s: State, c: nat, p: nat, i: nat, ok: bool)
    requires Inv(s) && At(s, c, p, ReapBody(i)) && i < |s.procs|
    ensures Inv(WaitWork(s, p, ok))
  {
    hide CpusInv, LocksInv, ThreadsInv, FamilyInv, WakeupsInv, PidsInv, ProcOk, PcOk, FamilyOk;
    Facts(s, c, p, i);
    NotOwn(s, p, i);
    hide *;
    var s' := WaitWork(s, p, ok);
    WaitAt(s.procs[p].pc);
    FreedMoves(s, c, p, i, ok);
    FreedSlots(s, c, p, i, ok);
    OrderlyStep(s, s', c, p, i);
    LocalOf(s, s', c, p, i);
    FreedFamily(s, c, p, i, ok);
    PidsFrame(s, s', c, p, i);
  }

  // -------------------------------------------------------------- sleep_prepare

  lemma PrepMoves(s: State, c: nat, p: nat, ch: Chan, w: Where)
    requires LocksInv(s) && At(s, c, p, PrepBody(ch, w)) && PcOk(s, p)
    requires Holder(s, WaitLock) == c <==> HasWait(s.procs[p].pc)
    ensures LockStep(s, SleepWork(s, c, p), c) && Orderly(s, SleepWork(s, c, p), c, p, -1)
  {
    hide LockStep, LocksInv;
    AfterRelease(s, SleepWork(s, c, p), c, p, ProcLock(p));
  }

  lemma PrepSlots(s: State, c: nat, p: nat, ch: Chan, w: Where)
    requires At(s, c, p, PrepBody(ch, w)) && ProcOk(s, p) && PcOk(s, p) && s.procs[p].on == c
    ensures InOrder(s, SleepWork(s, c, p), p, -1) && PidCalm(s, SleepWork(s, c, p), p)
  {
    hide ProcOk, PcOk;
    PrepPc(s, c, p, ch, w);
    PrepProc(s, c, p, ch, w);
  }

  lemma PrepPc(s: State, c: nat, p: nat, ch: Chan, w: Where)
    requires At(s, c, p, PrepBody(ch, w)) && PcOk(s, p)
    ensures PcOk(SleepWork(s, c, p), p)
  {
    KidsKept(s, SleepWork(s, c, p), p);
    hide HasKid;
  }

  lemma PrepProc(s: State, c: nat, p: nat, ch: Chan, w: Where)
    requires At(s, c, p, PrepBody(ch, w)) && ProcOk(s, p) && PcOk(s, p) && s.procs[p].on == c
    ensures ProcOk(SleepWork(s, c, p), p)
  {
    hide HasKid, NoZombies;
  }

  lemma PrepFamily(s: State, c: nat, p: nat, ch: Chan, w: Where)
    requires FamilyInv(s) && WakeupsInv(s) && At(s, c, p, PrepBody(ch, w)) && PcOk(s, p) && CpusInv(s)
    requires Holder(s, WaitLock) == c <==> HasWait(s.procs[p].pc)
    requires StepFrame(s, SleepWork(s, c, p), c, p)
    ensures FamilyInv(SleepWork(s, c, p)) && WakeupsInv(SleepWork(s, c, p))
  {
    var s' := SleepWork(s, c, p);
    if Holder(s, WaitLock) != c {
      WaiterKept(s, s', c, p);
    }
    forall z | 0 <= z < |s'.procs| ensures FamilyOk(s', z) && NotLost(s', z) {
      assert FamilyOk(s, z) && NotLost(s, z);
    }
  }

  lemma KeepsPrepBody(s: State, c: nat, p: nat, ch: Chan, w: Where)
    requires Inv(s) && At(s, c, p, PrepBody(ch, w))
    ensures Inv(SleepWork(s, c, p))
  {
    hide CpusInv, LocksInv, ThreadsInv, FamilyInv, WakeupsInv, PidsInv, ProcOk, PcOk, FamilyOk;
    Facts(s, c, p, -1);
    hide *;
    var s' := SleepWork(s, c, p);
    PrepMoves(s, c, p, ch, w);
    PrepSlots(s, c, p, ch, w);
    OrderlyStep(s, s', c, p, -1);
    LocalOf(s, s', c, p, -1);
    PrepFamily(s, c, p, ch, w);
    PidsFrame(s, s', c, p, -1);
  }
}
