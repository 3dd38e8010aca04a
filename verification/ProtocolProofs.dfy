/**
 Every step of the protocol keeps the invariant, one program point after the other: the
 steps that leave the family of processes alone.
 */
module ProtocolProofs {
  import opened Protocol
  import opened ProtocolInv
  import opened ProtocolSteps

  /** The thread of process p on CPU c is at pc. */
  predicate At(s: State, c: nat, p: nat, pc: Pc) {
    Acting(s, c, p) && s.procs[p].intr.NoYield? && s.procs[p].pc == pc
  }

  // ------------------------------------------------------------ wakeup and kkill

  lemma KillBodyMoves(s: State, c: nat, p: nat, pid: nat, i: nat)
    requires LocksInv(s) && At(s, c, p, KillBody(pid, i)) && i < |s.procs|
    ensures LockStep(s, WakeWork(s, p), c)
  {
    hide LockStep, LocksInv;
    AfterRelease(s, WakeWork(s, p), c, p, ProcLock(i));
  }

  lemma KillBodyGentle(s: State, c: nat, p: nat, pid: nat, i: nat)
    requires At(s, c, p, KillBody(pid, i)) && i < |s.procs| && CleanWhenUnused(s, i) && pid != 0
    ensures GentleOn(s, WakeWork(s, p), c, p, i)
  {
  }

  lemma KillBodySlot(s: State, c: nat, p: nat, pid: nat, i: nat)
    requires At(s, c, p, KillBody(pid, i)) && i < |s.procs| && ProcOk(s, p) && PcOk(s, p) && s.procs[p].on == c
    ensures ProcOk(WakeWork(s, p), p) && PcOk(WakeWork(s, p), p) && pid != 0
  {
  }

  lemma KeepsKillBody(s: State, c: nat, p: nat, pid: nat, i: nat)
    requires Inv(s) && At(s, c, p, KillBody(pid, i)) && i < |s.procs|
    ensures Inv(WakeWork(s, p))
  {
    hide CpusInv, LocksInv, ThreadsInv, FamilyInv, WakeupsInv, PidsInv, ProcOk, PcOk, FamilyOk;
    Facts(s, c, p, i);
    hide *;
    KillBodySlot(s, c, p, pid, i);
    KillBodyMoves(s, c, p, pid, i);
    KillBodyGentle(s, c, p, pid, i);
    PlainStep(s, WakeWork(s, p), c, p, i);
  }

  lemma SetBodyMoves(s: State, c: nat, p: nat)
    requires LocksInv(s) && At(s, c, p, SetBody) && ProcOk(s, p) && s.procs[p].on == c
    ensures LockStep(s, WakeWork(s, p), c) && GentleOn(s, WakeWork(s, p), c, p, -1)
  {
    hide LockStep, LocksInv;
    AfterRelease(s, WakeWork(s, p), c, p, ProcLock(p));
  }

  lemma SetBodySlot(s: State, c: nat, p: nat)
    requires At(s, c, p, SetBody) && ProcOk(s, p) && s.procs[p].on == c
    ensures ProcOk(WakeWork(s, p), p) && PcOk(WakeWork(s, p), p) && Unrelied(s.procs[p].pc)
  {
  }

  lemma KeepsSetBody(s: State, c: nat, p: nat)
    requires Inv(s) && At(s, c, p, SetBody)
    ensures Inv(WakeWork(s, p))
  {
    hide CpusInv, LocksInv, ThreadsInv, FamilyInv, WakeupsInv, PidsInv, ProcOk, PcOk, FamilyOk;
    Facts(s, c, p, -1);
    hide *;
    SetBodyMoves(s, c, p);
    SetBodySlot(s, c, p);
    PlainStep(s, WakeWork(s, p), c, p, -1);
  }

  lemma WakeBodyMoves(s: State, c: nat, p: nat, ch: Chan, i: nat, k: Cont)
    requires LocksInv(s) && At(s, c, p, WakeBody(ch, i, k)) && i < |s.procs|
    ensures LockStep(s, WakeWork(s, p), c)
  {
    hide LockStep, LocksInv;
    AfterRelease(s, WakeWork(s, p), c, p, ProcLock(i));
  }

  lemma WakeBodyGentle(s: State, c: nat, p: nat, ch: Chan, i: nat, k: Cont)
    requires At(s, c, p, WakeBody(ch, i, k)) && i < |s.procs| && CleanWhenUnused(s, i)
    ensures GentleOn(s, WakeWork(s, p), c, p, i)
  {
  }

  lemma WakeBodySlot(s: State, c: nat, p: nat, ch: Chan, i: nat, k: Cont)
    requires At(s, c, p, WakeBody(ch, i, k)) && i < |s.procs| && ProcOk(s, p) && PcOk(s, p) && s.procs[p].on == c
    ensures ProcOk(WakeWork(s, p), p) && PcOk(WakeWork(s, p), p)
  {
  }

  /** Waking init up goes on, or has reached it. */
  lemma WakeBodyWaiter(s: State, c: nat, p: nat, ch: Chan, i: nat, k: Cont)
    requires At(s, c, p, WakeBody(ch, i, k)) && i < |s.procs| && PcOk(s, p) && CpusInv(s) && k.ToReparent?
    requires Holder(s, WaitLock) == c <==> HasWait(s.procs[p].pc)
    ensures WaiterOk(s, WakeWork(s, p))
    ensures forall x :: !Builds(s.procs[p].pc, x)
  {
  }

  lemma KeepsWakeBody(s: State, c: nat, p: nat, ch: Chan, i: nat, k: Cont)
    requires Inv(s) && At(s, c, p, WakeBody(ch, i, k)) && i < |s.procs|
    ensures Inv(WakeWork(s, p))
  {
    hide CpusInv, LocksInv, ThreadsInv, FamilyInv, WakeupsInv, PidsInv, ProcOk, PcOk, FamilyOk;
    Facts(s, c, p, i);
    hide *;
    WakeBodySlot(s, c, p, ch, i, k);
    WakeBodyMoves(s, c, p, ch, i, k);
    WakeBodyGentle(s, c, p, ch, i, k);
    if k.ToReparent? {
      WakeBodyWaiter(s, c, p, ch, i, k);
      GentleStep(s, WakeWork(s, p), c, p, i);
    } else {
      PlainStep(s, WakeWork(s, p), c, p, i);
    }
  }

  lemma WakeDoneMoves(s: State, c: nat, p: nat, ch: Chan, i: nat, k: Cont)
    requires LocksInv(s) && At(s, c, p, WakeAcq(ch, i, k)) && i >= |s.procs|
    ensures LockStep(s, WakeWork(s, p), c) && GentleOn(s, WakeWork(s, p), c, p, -1)
  {
    hide LockStep, LocksInv;
    Unreleased(s, WakeWork(s, p), c, p);
  }

  lemma WakeDoneSlot(s: State, c: nat, p: nat, ch: Chan, i: nat, k: Cont)
    requires At(s, c, p, WakeAcq(ch, i, k)) && i >= |s.procs| && ProcOk(s, p) && PcOk(s, p) && s.procs[p].on == c
    requires FamilyOk(s, p)
    ensures ProcOk(WakeWork(s, p), p) && PcOk(WakeWork(s, p), p)
  {
  }

  lemma WakeDoneWaiter(s: State, c: nat, p: nat, ch: Chan, i: nat, k: Cont)
    requires At(s, c, p, WakeAcq(ch, i, k)) && i >= |s.procs| && s.init < |s.procs| && CpusInv(s)
    requires Holder(s, WaitLock) == c <==> HasWait(s.procs[p].pc)
    ensures WaiterOk(s, WakeWork(s, p))
    ensures forall x :: !Builds(s.procs[p].pc, x)
  {
    if Holder(s, WaitLock) != c {
      WaiterKept(s, WakeWork(s, p), c, p);
    }
  }

  lemma KeepsWakeDone(s: State, c: nat, p: nat, ch: Chan, i: nat, k: Cont)
    requires Inv(s) && At(s, c, p, WakeAcq(ch, i, k)) && i >= |s.procs|
    ensures Inv(WakeWork(s, p))
  {
    hide CpusInv, LocksInv, ThreadsInv, FamilyInv, WakeupsInv, PidsInv, ProcOk, PcOk, FamilyOk;
    Facts(s, c, p, -1);
    hide *;
    WakeDoneSlot(s, c, p, ch, i, k);
    WakeDoneMoves(s, c, p, ch, i, k);
    WakeDoneWaiter(s, c, p, ch, i, k);
    GentleStep(s, WakeWork(s, p), c, p, -1);
  }

  lemma KeepsKillDone(s: State, c: nat, p: nat, pid: nat, i: nat)
    requires Inv(s) && At(s, c, p, KillAcq(pid, i)) && i >= |s.procs|
    ensures Inv(WakeWork(s, p))
  {
    hide CpusInv, LocksInv, ThreadsInv, FamilyInv, WakeupsInv, PidsInv, ProcOk, PcOk, FamilyOk;
    Facts(s, c, p, -1);
    hide *;
    ToUserOk(s, c, p);
    PlainStep(s, Goto(s, p, User), c, p, -1);
  }

  lemma KeepsAllocDone(s: State, c: nat, p: nat, i: nat, ok: bool)
    requires Inv(s) && At(s, c, p, AllocAcq(i)) && i >= |s.procs|
    ensures Inv(ForkWork(s, p, ok))
  {
    hide CpusInv, LocksInv, ThreadsInv, FamilyInv, WakeupsInv, PidsInv, ProcOk, PcOk, FamilyOk;
    Facts(s, c, p, -1);
    hide *;
    ToUserOk(s, c, p);
    PlainStep(s, Goto(s, p, User), c, p, -1);
  }

  /** A loop that has found nothing returns without any lock. */
  lemma ToUserOk(s: State, c: nat, p: nat)
    requires LocksInv(s) && Acting(s, c, p) && s.procs[p].intr.NoYield? && ProcOk(s, p) && s.procs[p].on == c
    requires s.procs[p].pc.KillAcq? || s.procs[p].pc.AllocAcq?
    ensures var s' := Goto(s, p, User);
            && LockStep(s, s', c) && GentleOn(s, s', c, p, -1) && ProcOk(s', p) && PcOk(s', p)
            && Unrelied(s.procs[p].pc)
  {
    hide LockStep, LocksInv;
    Unreleased(s, Goto(s, p, User), c, p);
  }

  // ------------------------------------------------------------------ allocproc

  lemma AllocBodyMoves(s: State, c: nat, p: nat, i: nat, ok: bool)
    requires LocksInv(s) && At(s, c, p, AllocBody(i)) && i < |s.procs|
    ensures LockStep(s, ForkWork(s, p, ok), c) && GentleOn(s, ForkWork(s, p, ok), c, p, -1)
  {
    hide LockStep, LocksInv;
    if s.procs[i].state.UNUSED? {
      Unreleased(s, ForkWork(s, p, ok), c, p);
    } else {
      AfterRelease(s, ForkWork(s, p, ok), c, p, ProcLock(i));
    }
  }

  lemma AllocBodySlot(s: State, c: nat, p: nat, i: nat, ok: bool)
    requires At(s, c, p, AllocBody(i)) && i < |s.procs| && ProcOk(s, p) && s.procs[p].on == c
    ensures ProcOk(ForkWork(s, p, ok), p) && PcOk(ForkWork(s, p, ok), p) && Unrelied(s.procs[p].pc)
  {
  }

  lemma KeepsAllocBody(s: State, c: nat, p: nat, i: nat, ok: bool)
    requires Inv(s) && At(s, c, p, AllocBody(i)) && i < |s.procs|
    ensures Inv(ForkWork(s, p, ok))
  {
    hide CpusInv, LocksInv, ThreadsInv, FamilyInv, WakeupsInv, PidsInv, ProcOk, PcOk, FamilyOk;
    Facts(s, c, p, i);
    hide *;
    AllocBodyMoves(s, c, p, i, ok);
    AllocBodySlot(s, c, p, i, ok);
    PlainStep(s, ForkWork(s, p, ok), c, p, -1);
  }

  lemma MemFailsMoves(s: State, c: nat, p: nat, i: nat)
    requires LocksInv(s) && At(s, c, p, MemBody(i)) && i < |s.procs|
    ensures LockStep(s, ForkWork(s, p, false), c) && GentleOn(s, ForkWork(s, p, false), c, p, -1)
  {
    hide LockStep, LocksInv;
    AfterRelease(s, ForkWork(s, p, false), c, p, MemLock);
  }

  lemma MemFailsSlot(s: State, c: nat, p: nat, i: nat)
    requires At(s, c, p, MemBody(i)) && i < |s.procs| && ProcOk(s, p) && PcOk(s, p) && s.procs[p].on == c
    ensures ProcOk(ForkWork(s, p, false), p) && PcOk(ForkWork(s, p, false), p)
    ensures forall x | Builds(s.procs[p].pc, x) :: Builds(ForkWork(s, p, false).procs[p].pc, x)
  {
  }

  lemma KeepsMemFails(s: State, c: nat, p: nat, i: nat)
    requires Inv(s) && At(s, c, p, MemBody(i)) && i < |s.procs|
    ensures Inv(ForkWork(s, p, false))
  {
    hide CpusInv, LocksInv, ThreadsInv, FamilyInv, WakeupsInv, PidsInv, ProcOk, PcOk, FamilyOk;
    Facts(s, c, p, -1);
    hide *;
    MemFailsMoves(s, c, p, i);
    MemFailsSlot(s, c, p, i);
    Bystander(s, ForkWork(s, p, false), c, p, -1);
    GentleStep(s, ForkWork(s, p, false), c, p, -1);
  }

  /** A thread without wait_lock has no part in what its holder does. */
  lemma Bystander(s: State, s': State, c: nat, p: nat, i: int)
    requires CpusInv(s) && Acting(s, c, p) && s.procs[p].intr.NoYield? && GentleOn(s, s', c, p, i)
    requires (Holder(s, WaitLock) == c <==> HasWait(s.procs[p].pc)) && !HasWait(s.procs[p].pc)
    requires LockStep(s, s', c) && (Holder(s, WaitLock) == -1 || Holder(s', WaitLock) == Holder(s, WaitLock))
    ensures WaiterOk(s, s')
  {
    GentleFrame(s, s', c, p, i);
    if Holder(s, WaitLock) != -1 {
      WaiterKept(s, s', c, p);
    }
  }

  // ---------------------------------------------------------------------- kwait

  lemma ScanMoves(s: State, c: nat, p: nat, i: nat, h: bool, ok: bool)
    requires LocksInv(s) && At(s, c, p, Scan(i, h))
    ensures LockStep(s, WaitWork(s, p, ok), c) && GentleOn(s, WaitWork(s, p, ok), c, p, -1)
  {
    hide LockStep, LocksInv;
    Unreleased(s, WaitWork(s, p, ok), c, p);
  }

  lemma ScanSlot(s: State, c: nat, p: nat, i: nat, h: bool, ok: bool)
    requires At(s, c, p, Scan(i, h)) && ProcOk(s, p) && PcOk(s, p) && s.procs[p].on == c
    ensures ProcOk(WaitWork(s, p, ok), p) && PcOk(WaitWork(s, p, ok), p) && Unrelied(s.procs[p].pc)
  {
    hide ProcOk, PcOk;
    if i < |s.procs| {
      ScanNext(s, c, p, i, h, ok);
    } else {
      ScanDone(s, c, p, i, h, ok);
    }
  }

  lemma ScanNext(s: State, c: nat, p: nat, i: nat, h: bool, ok: bool)
    requires At(s, c, p, Scan(i, h)) && ProcOk(s, p) && PcOk(s, p) && s.procs[p].on == c && i < |s.procs|
    ensures ProcOk(WaitWork(s, p, ok), p) && PcOk(WaitWork(s, p, ok), p)
  {
    assert ProcOk(WaitWork(s, p, ok), p) by {
      hide PcOk;
    }
    KidsKept(s, WaitWork(s, p, ok), p);
    hide HasKid, ProcOk, NoLocks;
  }

  lemma ScanDone(s: State, c: nat, p: nat, i: nat, h: bool, ok: bool)
    requires At(s, c, p, Scan(i, h)) && ProcOk(s, p) && PcOk(s, p) && s.procs[p].on == c && i >= |s.procs|
    ensures ProcOk(WaitWork(s, p, ok), p) && PcOk(WaitWork(s, p, ok), p)
  {
    KidsKept(s, WaitWork(s, p, ok), p);
    hide HasKid;
  }

  lemma KeepsScan(s: State, c: nat, p: nat, i: nat, h: bool, ok: bool)
    requires Inv(s) && At(s, c, p, Scan(i, h))
    ensures Inv(WaitWork(s, p, ok))
  {
    hide CpusInv, LocksInv, ThreadsInv, FamilyInv, WakeupsInv, PidsInv, ProcOk, PcOk, FamilyOk;
    Facts(s, c, p, -1);
    hide *;
    ScanMoves(s, c, p, i, h, ok);
    ScanSlot(s, c, p, i, h, ok);
    PlainStep(s, WaitWork(s, p, ok), c, p, -1);
  }

  /** A child that is left alone, or whose exit status could not be copied out. */
  predicate LeftAlone(s: State, i: nat, ok: bool)
    requires i < |s.procs|
  {
    !s.procs[i].state.ZOMBIE? || !ok
  }

  lemma ChildMoves(s: State, c: nat, p: nat, i: nat, ok: bool)
    requires LocksInv(s) && At(s, c, p, ChildBody(i)) && i < |s.procs| && LeftAlone(s, i, ok)
    ensures LockStep(s, WaitWork(s, p, ok), c) && GentleOn(s, WaitWork(s, p, ok), c, p, -1)
  {
    hide LockStep, LocksInv;
    if s.procs[i].state.ZOMBIE? {
      Unreleased(s, WaitWork(s, p, ok), c, p);
    } else {
      AfterRelease(s, WaitWork(s, p, ok), c, p, ProcLock(i));
    }
  }

  lemma ChildSlot(s: State, c: nat, p: nat, i: nat, ok: bool)
    requires At(s, c, p, ChildBody(i)) && i < |s.procs| && LeftAlone(s, i, ok)
    requires ProcOk(s, p) && PcOk(s, p) && s.procs[p].on == c
    ensures ProcOk(WaitWork(s, p, ok), p) && PcOk(WaitWork(s, p, ok), p) && Unrelied(s.procs[p].pc)
  {
    assert WaitWork(s, p, ok).procs[i].parent == p;
  }

  lemma KeepsChildBody(s: State, c: nat, p: nat, i: nat, ok: bool)
    requires Inv(s) && At(s, c, p, ChildBody(i)) && i < |s.procs| && LeftAlone(s, i, ok)
    ensures Inv(WaitWork(s, p, ok))
  {
    hide CpusInv, LocksInv, ThreadsInv, FamilyInv, WakeupsInv, PidsInv, ProcOk, PcOk, FamilyOk;
    Facts(s, c, p, -1);
    hide *;
    ChildMoves(s, c, p, i, ok);
    ChildSlot(s, c, p, i, ok);
    PlainStep(s, WaitWork(s, p, ok), c, p, -1);
  }

  /** A fault in the copyout of the exit status. */
  lemma CopyOutMoves(s: State, c: nat, p: nat, i: nat)
    requires LocksInv(s) && At(s, c, p, ChildBody(i)) && i < |s.procs|
    ensures LockStep(s, Goto(s, p, OutAcq(i)), c) && GentleOn(s, Goto(s, p, OutAcq(i)), c, p, -1)
  {
    hide LockStep, LocksInv;
    Unreleased(s, Goto(s, p, OutAcq(i)), c, p);
  }

  lemma CopyOutSlot(s: State, c: nat, p: nat, i: nat)
    requires At(s, c, p, ChildBody(i)) && i < |s.procs| && ProcOk(s, p) && PcOk(s, p) && s.procs[p].on == c
    ensures ProcOk(Goto(s, p, OutAcq(i)), p) && PcOk(Goto(s, p, OutAcq(i)), p) && Unrelied(s.procs[p].pc)
  {
  }

  lemma KeepsCopyOut(s: State, c: nat, p: nat, i: nat)
    requires Inv(s) && At(s, c, p, ChildBody(i)) && i < |s.procs|
    ensures Inv(Goto(s, p, OutAcq(i)))
  {
    hide CpusInv, LocksInv, ThreadsInv, FamilyInv, WakeupsInv, PidsInv, ProcOk, PcOk, FamilyOk;
    Facts(s, c, p, -1);
    hide *;
    CopyOutMoves(s, c, p, i);
    CopyOutSlot(s, c, p, i);
    PlainStep(s, Goto(s, p, OutAcq(i)), c, p, -1);
  }

  lemma KilledMoves(s: State, c: nat, p: nat, ok: bool)
    requires LocksInv(s) && At(s, c, p, KilledBody)
    ensures LockStep(s, WaitWork(s, p, ok), c) && GentleOn(s, WaitWork(s, p, ok), c, p, -1)
  {
    hide LockStep, LocksInv;
    AfterRelease(s, WaitWork(s, p, ok), c, p, ProcLock(p));
  }

  lemma KilledSlot(s: State, c: nat, p: nat, ok: bool)
    requires At(s, c, p, KilledBody) && ProcOk(s, p) && PcOk(s, p) && s.procs[p].on == c
    ensures ProcOk(WaitWork(s, p, ok), p) && PcOk(WaitWork(s, p, ok), p) && Unrelied(s.procs[p].pc)
  {
    KidsKept(s, WaitWork(s, p, ok), p);
    hide HasKid;
  }

  lemma KeepsKilledBody(s: State, c: nat, p: nat, ok: bool)
    requires Inv(s) && At(s, c, p, KilledBody)
    ensures Inv(WaitWork(s, p, ok))
  {
    hide CpusInv, LocksInv, ThreadsInv, FamilyInv, WakeupsInv, PidsInv, ProcOk, PcOk, FamilyOk;
    Facts(s, c, p, -1);
    hide *;
    KilledMoves(s, c, p, ok);
    KilledSlot(s, c, p, ok);
    PlainStep(s, WaitWork(s, p, ok), c, p, -1);
  }

  // ---------------------------------------------------------------------- sleep

  lemma AwakeMoves(s: State, c: nat, p: nat, w: Where)
    requires LocksInv(s) && At(s, c, p, SleepBody(w)) && s.procs[p].chan.NoChan?
    ensures LockStep(s, SleepWork(s, c, p), c) && GentleOn(s, SleepWork(s, c, p), c, p, -1)
  {
    hide LockStep, LocksInv;
    Unreleased(s, SleepWork(s, c, p), c, p);
  }

  lemma AwakeSlot(s: State, c: nat, p: nat, w: Where)
    requires At(s, c, p, SleepBody(w)) && s.procs[p].chan.NoChan? && ProcOk(s, p) && PcOk(s, p) && s.procs[p].on == c
    ensures ProcOk(SleepWork(s, c, p), p) && PcOk(SleepWork(s, c, p), p) && Unrelied(s.procs[p].pc)
  {
    KidsKept(s, SleepWork(s, c, p), p);
    hide HasKid;
  }

  /** sleep when the wakeup has come already. */
  lemma KeepsAwake(s: State, c: nat, p: nat, w: Where)
    requires Inv(s) && At(s, c, p, SleepBody(w)) && s.procs[p].chan.NoChan?
    ensures Inv(SleepWork(s, c, p))
  {
    hide CpusInv, LocksInv, ThreadsInv, FamilyInv, WakeupsInv, PidsInv, ProcOk, PcOk, FamilyOk;
    Facts(s, c, p, -1);
    hide *;
    AwakeMoves(s, c, p, w);
    AwakeSlot(s, c, p, w);
    PlainStep(s, SleepWork(s, c, p), c, p, -1);
  }

  // -------------------------------------------------------------------- reparent

  /** A round of reparent at which no child is found, or the end of its loop. */
  predicate NotAdopted(s: State, p: nat, i: nat) {
    i >= |s.procs| || s.procs[i].parent != p
  }

  lemma PassedMoves(s: State, c: nat, p: nat, i: nat)
    requires LocksInv(s) && At(s, c, p, Reparent(i)) && NotAdopted(s, p, i)
    ensures LockStep(s, ExitWork(s, c, p), c) && GentleOn(s, ExitWork(s, c, p), c, p, -1)
  {
    hide LockStep, LocksInv;
    Unreleased(s, ExitWork(s, c, p), c, p);
  }

  lemma PassedSlot(s: State, c: nat, p: nat, i: nat)
    requires At(s, c, p, Reparent(i)) && NotAdopted(s, p, i) && s.procs[p].on == c
    requires ProcOk(s, p) && PcOk(s, p) && FamilyOk(s, p)
    ensures ProcOk(ExitWork(s, c, p), p) && PcOk(ExitWork(s, c, p), p) && Unrelied(s.procs[p].pc)
  {
  }

  lemma KeepsPassed(s: State, c: nat, p: nat, i: nat)
    requires Inv(s) && At(s, c, p, Reparent(i)) && NotAdopted(s, p, i)
    ensures Inv(ExitWork(s, c, p))
  {
    hide CpusInv, LocksInv, ThreadsInv, FamilyInv, WakeupsInv, PidsInv, ProcOk, PcOk, FamilyOk;
    Facts(s, c, p, -1);
    hide *;
    PassedMoves(s, c, p, i);
    PassedSlot(s, c, p, i);
    PlainStep(s, ExitWork(s, c, p), c, p, -1);
  }

  // ------------------------------------------------------- what starts at User

  lemma StartMoves(s: State, c: nat, p: nat, pc: Pc)
    requires LocksInv(s) && At(s, c, p, User) && Starts(pc, p, s.init)
    ensures LockStep(s, Goto(s, p, pc), c) && GentleOn(s, Goto(s, p, pc), c, p, -1)
  {
    hide LockStep, LocksInv;
    Unreleased(s, Goto(s, p, pc), c, p);
  }

  lemma StartSlot(s: State, c: nat, p: nat, pc: Pc)
    requires At(s, c, p, User) && Starts(pc, p, s.init) && ProcOk(s, p) && s.procs[p].on == c
    ensures ProcOk(Goto(s, p, pc), p) && PcOk(Goto(s, p, pc), p) && Unrelied(s.procs[p].pc)
  {
  }

  lemma KeepsStart(s: State, c: nat, p: nat, pc: Pc)
    requires Inv(s) && At(s, c, p, User) && Starts(pc, p, s.init)
    ensures Inv(Goto(s, p, pc))
  {
    hide CpusInv, LocksInv, ThreadsInv, FamilyInv, WakeupsInv, PidsInv, ProcOk, PcOk, FamilyOk;
    Facts(s, c, p, -1);
    hide *;
    StartMoves(s, c, p, pc);
    StartSlot(s, c, p, pc);
    PlainStep(s, Goto(s, p, pc), c, p, -1);
  }
}
