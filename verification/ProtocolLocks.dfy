/**
 Every step of the protocol keeps the invariant: acquiring and releasing locks, and giving
 a CPU to a process and back.
 */
module ProtocolLocks {
  import opened Protocol
  import opened Wrappers
  import opened ProtocolInv
  import opened ProtocolSteps
  import opened ProtocolProofs

  // -------------------------------------------------------------------- acquire

  /** An acquire adds exactly the lock it asks for to those of the program point. */
  lemma WantGets(pc: Pc, p: nat, n: nat, q: ProcSlot)
    requires q.pc == pc && q.intr.NoYield? && Want(q, p, n).Some?
    ensures GetsHold(pc, Got(pc), p, Want(q, p, n).value)
    ensures forall x | Builds(pc, x) :: Builds(Got(pc), x)
  {
  }

  lemma AcquireMoves(s: State, c: nat, p: nat)
    requires LocksInv(s) && Acting(s, c, p) && s.procs[p].intr.NoYield? && Want(s.procs[p], p, |s.procs|).Some?
    requires Holder(s, Want(s.procs[p], p, |s.procs|).value) == -1
    ensures var s' := Goto(Take(s, Want(s.procs[p], p, |s.procs|).value, c), p, Got(s.procs[p].pc));
            && LockStep(s, s', c) && GentleOn(s, s', c, p, -1)
            && forall x | Builds(s.procs[p].pc, x) :: Builds(s'.procs[p].pc, x)
  {
    hide LockStep, LocksInv, Want, Got, GetsHold, Locked;
    var (l, pc) := (Want(s.procs[p], p, |s.procs|).value, s.procs[p].pc);
    WantGets(pc, p, |s.procs|, s.procs[p]);
    Acquired(s, Goto(Take(s, l, c), p, Got(pc)), c, p, l);
  }

  lemma AcquireForkSlot(s: State, c: nat, p: nat, l: LockId)
    requires Acting(s, c, p) && s.procs[p].intr.NoYield? && ProcOk(s, p) && PcOk(s, p) && s.procs[p].on == c
    requires Want(s.procs[p], p, |s.procs|) == Some(l)
    requires var pc := s.procs[p].pc;
             pc.AllocAcq? || pc.PidAcq? || pc.MemAcq? || pc.FailAcq? || pc.ParentAcq? || pc.RunAcq?
    ensures var s' := Goto(Take(s, l, c), p, Got(s.procs[p].pc)); ProcOk(s', p) && PcOk(s', p)
  {
  }

  lemma AcquireExitSlot(s: State, c: nat, p: nat, l: LockId)
    requires Acting(s, c, p) && s.procs[p].intr.NoYield? && ProcOk(s, p) && PcOk(s, p) && s.procs[p].on == c
    requires Want(s.procs[p], p, |s.procs|) == Some(l)
    requires var pc := s.procs[p].pc; pc.ExitAcq? || pc.OwnAcq? || pc.WakeAcq? || pc.KillAcq? || pc.SetAcq?
    ensures var s' := Goto(Take(s, l, c), p, Got(s.procs[p].pc)); ProcOk(s', p) && PcOk(s', p)
  {
  }

  lemma AcquireScanSlot(s: State, c: nat, p: nat, l: LockId)
    requires Acting(s, c, p) && s.procs[p].intr.NoYield? && ProcOk(s, p) && PcOk(s, p) && s.procs[p].on == c
    requires Want(s.procs[p], p, |s.procs|) == Some(l)
    requires var pc := s.procs[p].pc; pc.WaitAcq? || pc.ChildAcq? || pc.OutAcq? || pc.ReapAcq?
    ensures var s' := Goto(Take(s, l, c), p, Got(s.procs[p].pc)); ProcOk(s', p) && PcOk(s', p)
  {
  }

  lemma AcquireSleepSlot(s: State, c: nat, p: nat, l: LockId)
    requires Acting(s, c, p) && s.procs[p].intr.NoYield? && ProcOk(s, p) && PcOk(s, p) && s.procs[p].on == c
    requires Want(s.procs[p], p, |s.procs|) == Some(l)
    requires var pc := s.procs[p].pc; pc.KilledAcq? || pc.PrepAcq? || pc.SleepAcq?
    ensures var s' := Goto(Take(s, l, c), p, Got(s.procs[p].pc)); ProcOk(s', p) && PcOk(s', p)
  {
    hide ProcOk, PcOk, HasKid;
    AcquireSleepProc(s, c, p, l);
    AcquireSleepPc(s, c, p, l);
  }

  lemma AcquireSleepProc(s: State, c: nat, p: nat, l: LockId)
    requires Acting(s, c, p) && s.procs[p].intr.NoYield? && ProcOk(s, p) && s.procs[p].on == c
    requires var pc := s.procs[p].pc; pc.KilledAcq? || pc.PrepAcq? || pc.SleepAcq?
    ensures ProcOk(Goto(Take(s, l, c), p, Got(s.procs[p].pc)), p)
  {
  }

  lemma AcquireSleepPc(s: State, c: nat, p: nat, l: LockId)
    requires Acting(s, c, p) && PcOk(s, p)
    requires var pc := s.procs[p].pc; pc.KilledAcq? || pc.PrepAcq? || pc.SleepAcq?
    ensures PcOk(Goto(Take(s, l, c), p, Got(s.procs[p].pc)), p)
  {
    var s' := Goto(Take(s, l, c), p, Got(s.procs[p].pc));
    KidsKept(s, s', p);
    assert NoZombies(s, p, |s.procs|) ==> NoZombies(s', p, |s'.procs|);
    hide HasKid, NoZombies, NoKids;
  }

  lemma AcquireSlot(s: State, c: nat, p: nat, l: LockId)
    requires Acting(s, c, p) && s.procs[p].intr.NoYield? && ProcOk(s, p) && PcOk(s, p) && s.procs[p].on == c
    requires Want(s.procs[p], p, |s.procs|) == Some(l)
    ensures var s' := Goto(Take(s, l, c), p, Got(s.procs[p].pc)); ProcOk(s', p) && PcOk(s', p)
  {
    hide ProcOk, PcOk, Got, Take, Goto;
    var pc := s.procs[p].pc;
    if pc.AllocAcq? || pc.PidAcq? || pc.MemAcq? || pc.FailAcq? || pc.ParentAcq? || pc.RunAcq? {
      AcquireForkSlot(s, c, p, l);
    } else if pc.ExitAcq? || pc.OwnAcq? || pc.WakeAcq? || pc.KillAcq? || pc.SetAcq? {
      AcquireExitSlot(s, c, p, l);
    } else if pc.WaitAcq? || pc.ChildAcq? || pc.OutAcq? || pc.ReapAcq? {
      AcquireScanSlot(s, c, p, l);
    } else {
      AcquireSleepSlot(s, c, p, l);
    }
  }

  lemma AcquireWaiter(s: State, c: nat, p: nat, l: LockId)
    requires CpusInv(s) && Acting(s, c, p) && s.procs[p].intr.NoYield?
    requires Want(s.procs[p], p, |s.procs|) == Some(l) && Holder(s, l) == -1
    ensures WaiterOk(s, Goto(Take(s, l, c), p, Got(s.procs[p].pc)))
  {
    var s' := Goto(Take(s, l, c), p, Got(s.procs[p].pc));
    if l != WaitLock && Holder(s, WaitLock) != c {
      WaiterKept(s, s', c, p);
    }
  }

  lemma KeepsAcquire(s: State, c: nat, p: nat, l: LockId)
    requires Inv(s) && Acting(s, c, p) && s.procs[p].intr.NoYield?
    requires Want(s.procs[p], p, |s.procs|) == Some(l) && Holder(s, l) == -1
    ensures Inv(Goto(Take(s, l, c), p, Got(s.procs[p].pc)))
  {
    hide CpusInv, LocksInv, ThreadsInv, FamilyInv, WakeupsInv, PidsInv, ProcOk, PcOk, FamilyOk;
    Facts(s, c, p, -1);
    hide *;
    var s' := Goto(Take(s, l, c), p, Got(s.procs[p].pc));
    AcquireMoves(s, c, p);
    AcquireSlot(s, c, p, l);
    AcquireWaiter(s, c, p, l);
    GentleStep(s, s', c, p, -1);
  }

  // -------------------------------------------------------------------- release

  lemma LetsGive(pc: Pc, p: nat, q: ProcSlot)
    requires q.pc == pc && q.intr.NoYield? && Lets(q, p).Some?
    ensures LetsGo(pc, Gone(pc), p, Lets(q, p).value)
    ensures forall x | Builds(pc, x) :: Builds(Gone(pc), x)
  {
  }

  lemma ReleaseMoves(s: State, c: nat, p: nat, l: LockId)
    requires LocksInv(s) && Acting(s, c, p) && s.procs[p].intr.NoYield? && Lets(s.procs[p], p) == Some(l)
    ensures var s' := Goto(Free(s, l), p, Gone(s.procs[p].pc));
            && LockStep(s, s', c) && GentleOn(s, s', c, p, -1)
            && forall x | Builds(s.procs[p].pc, x) :: Builds(s'.procs[p].pc, x)
  {
    hide LockStep, LocksInv, Lets, Gone, LetsGo, Locked;
    var pc := s.procs[p].pc;
    LetsGive(pc, p, s.procs[p]);
    AfterRelease(s, Goto(Free(s, l), p, Gone(pc)), c, p, l);
  }

  lemma ReleasingSlot(s: State, c: nat, p: nat, l: LockId)
    requires Acting(s, c, p) && s.procs[p].intr.NoYield? && ProcOk(s, p) && PcOk(s, p) && s.procs[p].on == c
    requires Lets(s.procs[p], p) == Some(l)
    ensures var s' := Goto(Free(s, l), p, Gone(s.procs[p].pc)); ProcOk(s', p) && PcOk(s', p)
  {
    KidsKept(s, Goto(Free(s, l), p, Gone(s.procs[p].pc)), p);
    hide HasKid;
  }

  lemma ReleaseWaiter(s: State, c: nat, p: nat, l: LockId)
    requires CpusInv(s) && Acting(s, c, p) && s.procs[p].intr.NoYield? && Lets(s.procs[p], p) == Some(l)
    requires (Holder(s, WaitLock) == c <==> HasWait(s.procs[p].pc))
    ensures WaiterOk(s, Goto(Free(s, l), p, Gone(s.procs[p].pc)))
  {
    var s' := Goto(Free(s, l), p, Gone(s.procs[p].pc));
    if Holder(s, WaitLock) != c {
      WaiterKept(s, s', c, p);
    }
  }

  lemma KeepsRelease(s: State, c: nat, p: nat, l: LockId)
    requires Inv(s) && Acting(s, c, p) && s.procs[p].intr.NoYield? && Lets(s.procs[p], p) == Some(l)
    ensures Inv(Goto(Free(s, l), p, Gone(s.procs[p].pc)))
  {
    hide CpusInv, LocksInv, ThreadsInv, FamilyInv, WakeupsInv, PidsInv, ProcOk, PcOk, FamilyOk;
    Facts(s, c, p, -1);
    hide *;
    ReleaseMoves(s, c, p, l);
    ReleasingSlot(s, c, p, l);
    ReleaseWaiter(s, c, p, l);
    GentleStep(s, Goto(Free(s, l), p, Gone(s.procs[p].pc)), c, p, -1);
  }

  // ---------------------------------------------------------------------- yield

  lemma PreemptMoves(s: State, c: nat, p: nat)
    requires LocksInv(s) && Acting(s, c, p) && s.procs[p].intr.NoYield? && NoLocks(s.procs[p].pc, p)
    ensures var s' := Upd(s, p, s.procs[p].(intr := YieldAcq)); LockStep(s, s', c) && GentleOn(s, s', c, p, -1)
  {
    Holding(s, c, p);
    hide LocksInv;
    var s' := Upd(s, p, s.procs[p].(intr := YieldAcq));
    forall l: LockId ensures Holder(s', l) == c <==> CpuLocked(s', c, l) {
      assert Holder(s, l) == c <==> ThreadLocked(s.procs[p], p, l);
    }
  }

  lemma IntrSlot(s: State, s': State, c: nat, p: nat)
    requires Acting(s, c, p) && ProcOk(s, p) && PcOk(s, p) && s.procs[p].on == c && GentleOn(s, s', c, p, -1)
    requires s'.procs[p] == s.procs[p].(intr := s'.procs[p].intr) && NoLocks(s.procs[p].pc, p)
    requires s.procs[p].state.RUNNING?
    ensures ProcOk(s', p) && PcOk(s', p)
  {
    assert s'.procs == s.procs[p := s'.procs[p]];
    KidsKept(s, s', p);
    hide NoLocks, HasKid;
  }

  lemma KeepsPreempt(s: State, c: nat, p: nat)
    requires Inv(s) && Acting(s, c, p) && s.procs[p].intr.NoYield? && NoLocks(s.procs[p].pc, p)
    ensures Inv(Upd(s, p, s.procs[p].(intr := YieldAcq)))
  {
    hide CpusInv, LocksInv, ThreadsInv, FamilyInv, WakeupsInv, PidsInv, ProcOk, PcOk, FamilyOk;
    Facts(s, c, p, -1);
    hide *;
    var s' := Upd(s, p, s.procs[p].(intr := YieldAcq));
    PreemptMoves(s, c, p);
    FreeRunning(s, c, p);
    IntrSlot(s, s', c, p);
    Bystander(s, s', c, p, -1);
    SameBuilder(s, s', p);
    GentleStep(s, s', c, p, -1);
  }

  lemma FreeRunning(s: State, c: nat, p: nat)
    requires Acting(s, c, p) && ProcOk(s, p) && s.procs[p].on == c && NoLocks(s.procs[p].pc, p)
    ensures s.procs[p].state.RUNNING? && !HasWait(s.procs[p].pc)
  {
  }

  lemma SameBuilder(s: State, s': State, p: nat)
    requires p < |s.procs| && p < |s'.procs| && s'.procs[p].pc == s.procs[p].pc
    ensures forall x | 0 <= x < |s.procs| && Builds(s.procs[p].pc, x) :: Builds(s'.procs[p].pc, x)
  {
  }

  lemma YieldAcqMoves(s: State, c: nat, p: nat)
    requires LocksInv(s) && Acting(s, c, p) && s.procs[p].intr.YieldAcq? && Holder(s, ProcLock(p)) == -1
    ensures var t := Take(s, ProcLock(p), c); var s' := Upd(t, p, t.procs[p].(intr := YieldBody));
            && LockStep(s, s', c) && GentleOn(s, s', c, p, -1) && Holder(s', WaitLock) == Holder(s, WaitLock)
            && Holder(s, WaitLock) != c
  {
    Holding(s, c, p);
    hide LocksInv;
    assert Holder(s, WaitLock) == c <==> ThreadLocked(s.procs[p], p, WaitLock);
    var t := Take(s, ProcLock(p), c);
    var s' := Upd(t, p, t.procs[p].(intr := YieldBody));
    forall l: LockId ensures Holder(s', l) == c <==> CpuLocked(s', c, l) {
      assert Holder(s, l) == c <==> ThreadLocked(s.procs[p], p, l);
    }
  }

  lemma KeepsYieldAcq(s: State, c: nat, p: nat)
    requires Inv(s) && Acting(s, c, p) && s.procs[p].intr.YieldAcq? && Holder(s, ProcLock(p)) == -1
    ensures var t := Take(s, ProcLock(p), c); Inv(Upd(t, p, t.procs[p].(intr := YieldBody)))
  {
    hide CpusInv, LocksInv, ThreadsInv, FamilyInv, WakeupsInv, PidsInv, ProcOk, PcOk, FamilyOk;
    Facts(s, c, p, -1);
    hide *;
    var t := Take(s, ProcLock(p), c);
    var s' := Upd(t, p, t.procs[p].(intr := YieldBody));
    YieldAcqMoves(s, c, p);
    InterruptedFree(s, p);
    FreeRunning(s, c, p);
    IntrSlot(s, s', c, p);
    Elsewhere(s, s', c, p);
    SameBuilder(s, s', p);
    GentleStep(s, s', c, p, -1);
  }

  lemma InterruptedFree(s: State, p: nat)
    requires p < |s.procs| && ProcOk(s, p) && !s.procs[p].intr.NoYield?
    ensures NoLocks(s.procs[p].pc, p)
  {
  }

  lemma Elsewhere(s: State, s': State, c: nat, p: nat)
    requires CpusInv(s) && GentleOn(s, s', c, p, -1)
    requires Holder(s', WaitLock) == Holder(s, WaitLock) && Holder(s, WaitLock) != c
    ensures WaiterOk(s, s')
  {
    GentleFrame(s, s', c, p, -1);
    WaiterKept(s, s', c, p);
  }

  lemma YieldBackMoves(s: State, c: nat, p: nat)
    requires LocksInv(s) && Acting(s, c, p) && s.procs[p].intr.YieldBack? && NoLocks(s.procs[p].pc, p)
    ensures var t := Free(s, ProcLock(p)); var s' := Upd(t, p, t.procs[p].(intr := NoYield));
            && LockStep(s, s', c) && GentleOn(s, s', c, p, -1) && Holder(s', WaitLock) == Holder(s, WaitLock)
            && Holder(s, WaitLock) != c
  {
    Holding(s, c, p);
    hide LocksInv;
    assert Holder(s, WaitLock) == c <==> ThreadLocked(s.procs[p], p, WaitLock);
    assert Holder(s, ProcLock(p)) == c;
    var t := Free(s, ProcLock(p));
    var s' := Upd(t, p, t.procs[p].(intr := NoYield));
    forall l: LockId ensures Holder(s', l) == c <==> CpuLocked(s', c, l) {
      assert Holder(s, l) == c <==> ThreadLocked(s.procs[p], p, l);
    }
  }

  lemma KeepsYieldBack(s: State, c: nat, p: nat)
    requires Inv(s) && Acting(s, c, p) && s.procs[p].intr.YieldBack?
    ensures var t := Free(s, ProcLock(p)); Inv(Upd(t, p, t.procs[p].(intr := NoYield)))
  {
    hide CpusInv, LocksInv, ThreadsInv, FamilyInv, WakeupsInv, PidsInv, ProcOk, PcOk, FamilyOk;
    Facts(s, c, p, -1);
    hide *;
    var t := Free(s, ProcLock(p));
    var s' := Upd(t, p, t.procs[p].(intr := NoYield));
    InterruptedFree(s, p);
    YieldBackMoves(s, c, p);
    FreeRunning(s, c, p);
    IntrSlot(s, s', c, p);
    Elsewhere(s, s', c, p);
    SameBuilder(s, s', p);
    GentleStep(s, s', c, p, -1);
  }

  // --------------------------------------------------------------- giving up a CPU

  /** sched(): p has set its state, holds its own lock and no other, and the scheduler takes over. */
  predicate SwitchOf(s: State, s': State, c: nat, p: nat) {
    && Acting(s, c, p) && CpuOk(s, c)
    && |s'.procs| == |s.procs| && s' == Switch(Upd(s, p, s'.procs[p]), c, p) && s'.procs[p].on == -1
    && s'.procs[p].parent == s.procs[p].parent && s'.procs[p].pid == s.procs[p].pid
    && s'.procs[p].state.ZOMBIE? == s.procs[p].state.ZOMBIE? && s'.procs[p].state.UNUSED? == s.procs[p].state.UNUSED?
    && Alive(s'.procs[p]) == Alive(s.procs[p]) && s'.procs[p].chan == s.procs[p].chan
  }

  lemma SwitchLocks(s: State, s': State, c: nat, p: nat)
    requires LocksInv(s) && SwitchOf(s, s', c, p)
    requires forall l: LockId :: ThreadLocked(s.procs[p], p, l) <==> l == ProcLock(p)
    ensures LockStep(s, s', c) && Holder(s', WaitLock) == Holder(s, WaitLock) && Holder(s, WaitLock) != c
  {
    Holding(s, c, p);
    hide LocksInv, ThreadLocked;
    assert Holder(s, WaitLock) == c <==> ThreadLocked(s.procs[p], p, WaitLock);
    forall l: LockId ensures Holder(s', l) == c <==> CpuLocked(s', c, l) {
      assert Holder(s, l) == c <==> ThreadLocked(s.procs[p], p, l);
    }
  }

  lemma SwitchOrder(s: State, s': State, c: nat, p: nat)
    requires SwitchOf(s, s', c, p)
    requires forall x | 0 <= x < |s.procs| && Builds(s.procs[p].pc, x) :: Builds(s'.procs[p].pc, x)
    ensures Orderly(s, s', c, p, -1) && Calm(s, s', p) && PidCalm(s, s', p)
  {
  }

  lemma SwitchStep(s: State, s': State, c: nat, p: nat)
    requires Inv(s) && SwitchOf(s, s', c, p)
    requires forall l: LockId :: ThreadLocked(s.procs[p], p, l) <==> l == ProcLock(p)
    requires forall x | 0 <= x < |s.procs| && Builds(s.procs[p].pc, x) :: Builds(s'.procs[p].pc, x)
    requires ProcOk(s', p) && PcOk(s', p)
    ensures Inv(s')
  {
    hide CpusInv, LocksInv, ThreadsInv, FamilyInv, WakeupsInv, PidsInv, ProcOk, PcOk, FamilyOk;
    Facts(s, c, p, -1);
    hide *;
    SwitchLocks(s, s', c, p);
    SwitchOrder(s, s', c, p);
    SwitchWaiter(s, s', c, p);
    CalmStep(s, s', c, p, -1);
  }

  lemma SwitchWaiter(s: State, s': State, c: nat, p: nat)
    requires CpusInv(s) && SwitchOf(s, s', c, p) && Orderly(s, s', c, p, -1) && ProcOk(s', p) && PcOk(s', p)
    requires Holder(s', WaitLock) == Holder(s, WaitLock) && Holder(s, WaitLock) != c
    ensures WaiterOk(s, s') && InOrder(s, s', p, -1)
  {
    WaiterKept(s, s', c, p);
    hide PcOk, ProcOk;
  }

  lemma YieldSlot(s: State, c: nat, p: nat)
    requires Acting(s, c, p) && CpuOk(s, c) && s.procs[p].intr.YieldBody? && s.procs[p].state.RUNNING?
    requires ProcOk(s, p) && PcOk(s, p)
    ensures var s' := Switch(Upd(s, p, s.procs[p].(state := RUNNABLE, intr := YieldBack)), c, p);
            ProcOk(s', p) && PcOk(s', p)
  {
    KidsKept(s, Switch(Upd(s, p, s.procs[p].(state := RUNNABLE, intr := YieldBack)), c, p), p);
    hide NoLocks, HasKid;
  }

  lemma YieldOf(s: State, c: nat, p: nat)
    requires Acting(s, c, p) && CpuOk(s, c) && s.procs[p].intr.YieldBody? && s.procs[p].state.RUNNING?
    ensures SwitchOf(s, Switch(Upd(s, p, s.procs[p].(state := RUNNABLE, intr := YieldBack)), c, p), c, p)
    ensures forall l: LockId :: ThreadLocked(s.procs[p], p, l) <==> l == ProcLock(p)
  {
  }

  lemma KeepsYieldSwitch(s: State, c: nat, p: nat)
    requires Inv(s) && Acting(s, c, p) && s.procs[p].intr.YieldBody?
    ensures Inv(Switch(Upd(s, p, s.procs[p].(state := RUNNABLE, intr := YieldBack)), c, p))
  {
    hide CpusInv, LocksInv, ThreadsInv, FamilyInv, WakeupsInv, PidsInv, ProcOk, PcOk, FamilyOk;
    Facts(s, c, p, -1);
    hide *;
    var s' := Switch(Upd(s, p, s.procs[p].(state := RUNNABLE, intr := YieldBack)), c, p);
    InterruptedFree(s, p);
    FreeRunning(s, c, p);
    YieldSlot(s, c, p);
    YieldOf(s, c, p);
    SameBuilder(s, s', p);
    SwitchStep(s, s', c, p);
  }

  lemma SleepSlot(s: State, c: nat, p: nat, w: Where)
    requires At(s, c, p, SleepBody(w)) && CpuOk(s, c) && !s.procs[p].chan.NoChan?
    requires ProcOk(s, p) && PcOk(s, p) && s.procs[p].on == c
    ensures var s' := SleepWork(s, c, p); ProcOk(s', p) && PcOk(s', p)
  {
    KidsKept(s, SleepWork(s, c, p), p);
    hide HasKid;
  }

  lemma SleepOf(s: State, c: nat, p: nat, w: Where)
    requires At(s, c, p, SleepBody(w)) && CpuOk(s, c) && !s.procs[p].chan.NoChan?
    requires ProcOk(s, p) && s.procs[p].on == c
    ensures SwitchOf(s, SleepWork(s, c, p), c, p)
    ensures forall l: LockId :: ThreadLocked(s.procs[p], p, l) <==> l == ProcLock(p)
    ensures forall x :: !Builds(s.procs[p].pc, x)
  {
  }

  lemma KeepsSleep(s: State, c: nat, p: nat, w: Where)
    requires Inv(s) && At(s, c, p, SleepBody(w)) && !s.procs[p].chan.NoChan?
    ensures Inv(SleepWork(s, c, p))
  {
    hide CpusInv, LocksInv, ThreadsInv, FamilyInv, WakeupsInv, PidsInv, ProcOk, PcOk, FamilyOk;
    Facts(s, c, p, -1);
    hide *;
    SleepSlot(s, c, p, w);
    SleepOf(s, c, p, w);
    SwitchStep(s, SleepWork(s, c, p), c, p);
  }

  lemma ExitSchedSlot(s: State, c: nat, p: nat)
    requires At(s, c, p, ExitSched) && CpuOk(s, c) && ProcOk(s, p) && s.procs[p].on == c
    ensures var s' := ExitWork(s, c, p);
            && SwitchOf(s, s', c, p) && ProcOk(s', p) && PcOk(s', p)
            && (forall l: LockId :: ThreadLocked(s.procs[p], p, l) <==> l == ProcLock(p))
            && forall x :: !Builds(s.procs[p].pc, x)
  {
  }

  lemma KeepsExitSched(s: State, c: nat, p: nat)
    requires Inv(s) && At(s, c, p, ExitSched)
    ensures Inv(ExitWork(s, c, p))
  {
    hide CpusInv, LocksInv, ThreadsInv, FamilyInv, WakeupsInv, PidsInv, ProcOk, PcOk, FamilyOk;
    Facts(s, c, p, -1);
    hide *;
    ExitSchedSlot(s, c, p);
    SwitchStep(s, ExitWork(s, c, p), c, p);
  }
}
