/**
 Every step of the protocol keeps the invariant: CPUs and locks.
 */
module ProtocolSteps {
  import opened Protocol
  import opened ProtocolInv

  /** CPU c executes the thread of process p. */
  predicate Acting(s: State, c: nat, p: nat) {
    c < |s.cpus| && p < |s.procs| && s.cpus[c].run == p
  }

  predicate Working(s: State, c: nat, p: nat) {
    Acting(s, c, p) && s.procs[p].intr.NoYield? && Works(s.procs[p].pc, |s.procs|)
  }

  /** A step by p on c leaves the other CPUs and the threads that they run alone. */
  predicate StepFrame(s: State, s': State, c: nat, p: nat) {
    && |s'.procs| == |s.procs| && |s'.cpus| == |s.cpus| && s'.init == s.init
    && (forall d | 0 <= d < |s.cpus| && d != c :: s'.cpus[d] == s.cpus[d])
    && (forall x | 0 <= x < |s.procs| && x != p ::
          s'.procs[x].on == s.procs[x].on
          && (s.procs[x].on >= 0 ==> s'.procs[x].pc == s.procs[x].pc && s'.procs[x].intr == s.procs[x].intr))
  }

  /** The thread stays on its CPU, or gives it back to the scheduler. */
  predicate Stays(s: State, s': State, c: nat, p: nat)
    requires Acting(s, c, p) && StepFrame(s, s', c, p)
  {
    || (s'.cpus[c] == s.cpus[c] && s'.procs[p].on == s.procs[p].on)
    || (s'.cpus[c] == s.cpus[c].(run := -1) && s'.procs[p].on == -1)
  }

  /** Locks change hands only between free and c, and c ends up with the ones of its program point. */
  ghost predicate LockStep(s: State, s': State, c: nat) {
    && |s'.cpus| == |s.cpus| && c < |s.cpus|
    && (forall l: LockId :: Holder(s', l) == Holder(s, l)
                            || (Holder(s, l) == -1 && Holder(s', l) == c) || (Holder(s, l) == c && Holder(s', l) == -1))
    && (forall l: LockId :: Holder(s', l) == c <==> CpuLocked(s', c, l))
  }

  lemma FrameCpus(s: State, s': State, c: nat, p: nat)
    requires CpusInv(s) && Acting(s, c, p) && StepFrame(s, s', c, p) && Stays(s, s', c, p)
    ensures CpusInv(s')
  {
    assert CpuOk(s, c);
    forall d | 0 <= d < |s'.cpus| ensures CpuOk(s', d) {
      assert CpuOk(s, d);
    }
    forall x | 0 <= x < |s'.procs| ensures OnOk(s', x) {
      assert OnOk(s, x);
    }
  }

  lemma FrameLocks(s: State, s': State, c: nat, p: nat)
    requires CpusInv(s) && LocksInv(s) && Acting(s, c, p) && StepFrame(s, s', c, p) && LockStep(s, s', c)
    ensures LocksInv(s')
  {
    hide Locked;
    assert CpuOk(s, c);
    forall l | l in s'.locks ensures s'.locks[l] < |s'.cpus| {
      assert Holder(s', l) == Holder(s, l) || Holder(s', l) == c;
    }
    forall d: nat, l: LockId | d < |s'.cpus| ensures Holder(s', l) == d <==> CpuLocked(s', d, l) {
      if d != c {
        assert CpuOk(s, d);
        assert CpuLocked(s', d, l) == CpuLocked(s, d, l);
        assert Holder(s, l) == d <==> CpuLocked(s, d, l);
      }
    }
  }

  /** What a thread that holds lock l knows about another CPU: it does not hold l. */
  lemma Exclusive(s: State, c: nat, p: nat, x: nat, l: LockId)
    requires CpusInv(s) && LocksInv(s) && Acting(s, c, p) && x < |s.procs| && x != p && s.procs[x].on >= 0
    requires ThreadLocked(s.procs[x], x, l)
    ensures Holder(s, l) != c && !ThreadLocked(s.procs[p], p, l)
  {
    hide Locked, ThreadLocked;
    assert OnOk(s, x) && CpuOk(s, c);
    assert CpuOk(s, s.procs[x].on);
    assert CpuLocked(s, s.procs[x].on, l);
    assert CpuLocked(s, c, l) <==> ThreadLocked(s.procs[p], p, l);
  }

  lemma HoldsIts(s: State, c: nat, p: nat, l: LockId)
    requires LocksInv(s) && Acting(s, c, p)
    ensures Holder(s, l) == c <==> ThreadLocked(s.procs[p], p, l)
  {
    hide Locked, ThreadLocked, Holder;
    assert CpuLocked(s, c, l) <==> ThreadLocked(s.procs[p], p, l);
  }

  lemma Holding(s: State, c: nat, p: nat)
    requires LocksInv(s) && Acting(s, c, p)
    ensures forall l: LockId {:trigger Holder(s, l)} :: Holder(s, l) == c <==> ThreadLocked(s.procs[p], p, l)
  {
    hide Locked, ThreadLocked;
    forall l: LockId ensures Holder(s, l) == c <==> ThreadLocked(s.procs[p], p, l) {
      HoldsIts(s, c, p, l);
    }
  }

  // ------------------------------------------------------------ other threads

  /** The step changes the records of p and i at most (i is -1 when it is p's alone). */
  predicate Local(s: State, s': State, c: nat, p: nat, i: int) {
    && Acting(s, c, p) && StepFrame(s, s', c, p) && s'.nextpid >= s.nextpid && i < |s.procs|
    && (forall x | 0 <= x < |s.procs| && x != p && x != i :: s'.procs[x] == s.procs[x])
  }

  /** The slot other than p that a step on slot i changes, -1 when it is p's own. */
  function Other(p: nat, i: int): int { if i == p then -1 else i }

  /** Record x keeps what the rest of the kernel relies on. */
  predicate Same(s: State, s': State, x: int)
    requires 0 <= x < |s.procs| && |s'.procs| == |s.procs|
  {
    && s'.procs[x].parent == s.procs[x].parent
    && s'.procs[x].state.ZOMBIE? == s.procs[x].state.ZOMBIE?
    && (s'.procs[x].chan == ProcChan(x) ==> s.procs[x].chan == ProcChan(x))
  }

  /** Slot x stays the child of its parent, unless that is p. */
  predicate KeepsKids(s: State, s': State, p: nat, x: int)
    requires 0 <= x < |s.procs| && |s'.procs| == |s.procs|
  {
    s'.procs[x].parent == s.procs[x].parent || s.procs[x].parent == -1 || s.procs[x].parent == p
  }

  /** What the step of p does to slot i, seen from the other threads. */
  predicate Polite(s: State, s': State, c: nat, p: nat, i: int)
    requires Local(s, s', c, p, i)
  {
    && (Holder(s, WaitLock) != c ==> Same(s, s', p)) && KeepsKids(s, s', p, p)
    && (i >= 0 ==>
          && KeepsKids(s, s', p, i)
          && (Holder(s, WaitLock) != c ==> Same(s, s', i))
          && (s.procs[i].state.UNUSED? && Holder(s, ProcLock(i)) != c ==> s'.procs[i].state.UNUSED?)
          && (s.procs[i].state.USED? && s.procs[i].maker != p ==>
                && s'.procs[i].state.USED? && s'.procs[i].maker == s.procs[i].maker
                && s'.procs[i].pages == s.procs[i].pages && s'.procs[i].parent == s.procs[i].parent))
  }

  /** A thread that holds a lock is on a CPU. */
  lemma OnCpu(s: State, x: nat)
    requires CpusInv(s) && ThreadsInv(s) && x < |s.procs|
    ensures ProcOk(s, x)
    ensures s.procs[x].intr.NoYield? && !NoLocks(s.procs[x].pc, x) && !Resumable(s.procs[x]) ==> s.procs[x].on >= 0
    ensures !s.procs[x].intr.NoYield? ==> NoLocks(s.procs[x].pc, x)
  {
    assert ProcOk(s, x) && OnOk(s, x);
    hide PcOk;
  }

  /** Wait_lock and slot locks of another thread are not c's. */
  lemma NotMine(s: State, c: nat, p: nat, x: nat)
    requires CpusInv(s) && LocksInv(s) && ThreadsInv(s) && Acting(s, c, p) && x < |s.procs| && x != p
    ensures HasWait(s.procs[x].pc) ==> Holder(s, WaitLock) != c
    ensures (s.procs[x].pc.PidAcq? || s.procs[x].pc.PidBody?) && s.procs[x].pc.i < |s.procs| ==>
              Holder(s, ProcLock(s.procs[x].pc.i)) != c
  {
    OnCpu(s, x);
    hide CpusInv, LocksInv, ThreadsInv, ProcOk;
    if HasWait(s.procs[x].pc) {
      Exclusive(s, c, p, x, WaitLock);
    }
    if s.procs[x].pc.PidAcq? || s.procs[x].pc.PidBody? {
      Exclusive(s, c, p, x, ProcLock(s.procs[x].pc.i));
    }
  }

  /** What another thread knows of its children and of its wait while it holds wait_lock. */
  lemma OtherWaitPc(s: State, s': State, c: nat, p: nat, i: int, x: nat)
    requires Local(s, s', c, p, i) && Polite(s, s', c, p, i) && Holder(s, WaitLock) != c
    requires x < |s.procs| && x != p && PcOk(s, x) && s'.procs[x].pc == s.procs[x].pc
    requires OfWait(s.procs[x].pc)
    ensures PcOk(s', x)
  {
    hide Polite, Local, HasKid, NoKids, NoZombies;
    AllSame(s, s', c, p, i);
    KidsKept(s, s', x);
    NoneKept(s, s', x);
  }

  lemma NoneKept(s: State, s': State, x: nat)
    requires |s'.procs| == |s.procs|
    requires forall z | 0 <= z < |s.procs| ::
               s'.procs[z].parent == s.procs[z].parent && s'.procs[z].state.ZOMBIE? == s.procs[z].state.ZOMBIE?
    ensures forall n: nat :: NoKids(s', x, n) <==> NoKids(s, x, n)
    ensures forall n: nat :: NoZombies(s', x, n) <==> NoZombies(s, x, n)
  {
  }

  lemma AllSame(s: State, s': State, c: nat, p: nat, i: int)
    requires Local(s, s', c, p, i) && Polite(s, s', c, p, i) && Holder(s, WaitLock) != c
    ensures |s'.procs| == |s.procs| && s'.init == s.init
    ensures forall z | 0 <= z < |s.procs| ::
              && s'.procs[z].parent == s.procs[z].parent
              && s'.procs[z].state.ZOMBIE? == s.procs[z].state.ZOMBIE?
              && (s'.procs[z].chan == ProcChan(z) ==> s.procs[z].chan == ProcChan(z))
  {
    assert forall z | 0 <= z < |s.procs| :: Same(s, s', z);
  }

  predicate OfWait(pc: Pc) {
    || pc.Scan? || pc.ChildAcq? || pc.ChildBody? || pc.OutAcq? || pc.OutBody? || pc.ReapRel? || pc.WaitRel?
    || pc.KilledAcq? || pc.KilledBody? || pc.WaitDrop? || ((pc.PrepAcq? || pc.PrepBody?) && pc.w.InWait?)
  }

  /** The same for the other program points with wait_lock. */
  lemma OtherExitPc(s: State, s': State, c: nat, p: nat, i: int, x: nat)
    requires Local(s, s', c, p, i) && Polite(s, s', c, p, i) && Holder(s, WaitLock) != c
    requires x < |s.procs| && x != p && PcOk(s, x) && s'.procs[x].pc == s.procs[x].pc
    requires HasWait(s.procs[x].pc) && !OfWait(s.procs[x].pc)
    requires !s.procs[p].state.USED? && s.procs[p].on >= 0 && s'.procs[x].parent == s.procs[x].parent
    ensures PcOk(s', x)
  {
    AllSame(s, s', c, p, i);
  }

  /** What another thread knows of the slot that it sets up. */
  lemma OtherForkPc(s: State, s': State, c: nat, p: nat, i: int, x: nat)
    requires Local(s, s', c, p, i) && Polite(s, s', c, p, i)
    requires x < |s.procs| && x != p && PcOk(s, x) && s'.procs[x].pc == s.procs[x].pc && !HasWait(s.procs[x].pc)
    requires !s.procs[p].state.USED? && !s.procs[p].state.UNUSED?
    requires (s.procs[x].pc.PidAcq? || s.procs[x].pc.PidBody?) ==> Holder(s, ProcLock(s.procs[x].pc.i)) != c
    ensures PcOk(s', x)
  {
    KidsKept(s, s', x);
    hide Same, HasKid;
  }

  lemma OtherPc(s: State, s': State, c: nat, p: nat, i: int, x: nat)
    requires CpusInv(s) && LocksInv(s) && ThreadsInv(s) && Local(s, s', c, p, i) && Polite(s, s', c, p, i)
    requires s.procs[p].on >= 0 && x < |s.procs| && x != p && PcOk(s, x) && s'.procs[x].pc == s.procs[x].pc
    ensures PcOk(s', x)
  {
    NotMine(s, c, p, x);
    assert ProcOk(s, p);
    if HasWait(s.procs[x].pc) {
      assert Same(s, s', x);
      hide PcOk, CpusInv, LocksInv, ThreadsInv;
      if OfWait(s.procs[x].pc) {
        OtherWaitPc(s, s', c, p, i, x);
      } else {
        OtherExitPc(s, s', c, p, i, x);
      }
    } else {
      assert (s.procs[x].pc.PidAcq? || s.procs[x].pc.PidBody?) ==> s.procs[x].pc.i < |s.procs|;
      hide PcOk, CpusInv, LocksInv, ThreadsInv;
      OtherForkPc(s, s', c, p, i, x);
    }
  }

  /** The slots that p builds stay its own, and slot i is no builder when its program point changes. */
  predicate KeepsBuilding(s: State, s': State, p: nat, i: int)
    requires p < |s.procs| == |s'.procs| && i < |s.procs|
  {
    && (forall x | 0 <= x < |s.procs| && x != i && Builds(s.procs[p].pc, x) :: Builds(s'.procs[p].pc, x))
    && (i >= 0 && i != p && s'.procs[i].pc != s.procs[i].pc ==>
          s.procs[i].pc.Idle? || s.procs[i].pc.ForkRet? || s.procs[i].pc.Dead?)
  }

  lemma BystanderSlot(s: State, s': State, c: nat, p: nat, i: int, x: nat)
    requires Local(s, s', c, p, i) && KeepsBuilding(s, s', p, i)
    requires x < |s.procs| && x != p && x != i && ProcOk(s, x)
    ensures ProcOk(s', x)
  {
    hide NoLocks;
  }

  /** Everything that threads know, after a step that is in order for p and i themselves. */
  lemma ThreadsFrame(s: State, s': State, c: nat, p: nat, i: int)
    requires CpusInv(s) && LocksInv(s) && ThreadsInv(s)
    requires Local(s, s', c, p, i) && Polite(s, s', c, p, i) && KeepsBuilding(s, s', p, i) && s.procs[p].on >= 0
    requires ProcOk(s', p) && PcOk(s', p)
    requires i >= 0 ==> ProcOk(s', i) && (s'.procs[i].pc == s.procs[i].pc || PcOk(s', i))
    ensures ThreadsInv(s')
  {
    forall x | 0 <= x < |s'.procs| ensures ProcOk(s', x) && PcOk(s', x) {
      assert ProcOk(s, x) && PcOk(s, x);
      hide CpusInv, LocksInv, ThreadsInv, ProcOk, PcOk, Polite, KeepsBuilding;
      if x != p {
        if x != i {
          BystanderSlot(s, s', c, p, i, x);
          OtherPc(s, s', c, p, i, x);
        } else if s'.procs[x].pc == s.procs[x].pc {
          OtherPc(s, s', c, p, i, x);
        }
      }
    }
  }

  /** The holder of wait_lock, when it is another thread, is where it was. */
  lemma WaiterKept(s: State, s': State, c: nat, p: nat)
    requires CpusInv(s) && Acting(s, c, p) && StepFrame(s, s', c, p)
    requires Holder(s, WaitLock) != c && Holder(s', WaitLock) == Holder(s, WaitLock)
    ensures Waiter(s') == Waiter(s)
  {
    var d := Holder(s, WaitLock);
    if 0 <= d < |s.cpus| {
      assert CpuOk(s, d) && CpuOk(s, c);
    }
  }

  // ---------------------------------------------------- family, wakeups, pids

  /** Record x keeps its pid, or becomes unused. */
  predicate PidCalm(s: State, s': State, x: int)
    requires 0 <= x < |s.procs| == |s'.procs|
  {
    s'.procs[x].state.UNUSED? || (s'.procs[x].pid == s.procs[x].pid && !s.procs[x].state.UNUSED?)
  }

  lemma PidsFrame(s: State, s': State, c: nat, p: nat, i: int)
    requires PidsInv(s) && Local(s, s', c, p, i) && PidCalm(s, s', p) && (i >= 0 ==> PidCalm(s, s', i))
    ensures PidsInv(s')
  {
  }

  /** Nothing happens to record x that the family of processes or wakeups depend on. */
  predicate Calm(s: State, s': State, x: int)
    requires 0 <= x < |s.procs| == |s'.procs|
  {
    var (q, q') := (s.procs[x], s'.procs[x]);
    && q'.parent == q.parent && q'.state.ZOMBIE? == q.state.ZOMBIE?
    && (Alive(q) ==> Alive(q')) && (Alive(q') && x != s.init ==> Alive(q) || q.parent >= 0)
    && (q'.chan == ProcChan(x) ==> q.chan == ProcChan(x))
  }

  /** The holder of wait_lock goes on with what others are entitled to expect of it. */
  predicate WaiterOk(s: State, s': State) {
    && (forall z | 0 <= z < |s.procs| && BeingReaped(s, z) :: BeingReaped(s', z))
    && (WakingInit(s) ==> WakingInit(s') || !Registered(s', s.init))
  }

  lemma CalmFrame(s: State, s': State, c: nat, p: nat, i: int)
    requires FamilyInv(s) && WakeupsInv(s) && Local(s, s', c, p, i)
    requires Calm(s, s', p) && (i >= 0 ==> Calm(s, s', i)) && WaiterOk(s, s')
    ensures FamilyInv(s') && WakeupsInv(s')
  {
    forall x | 0 <= x < |s.procs| ensures Calm(s, s', x) {
    }
    hide Waiter, WakingInit, BeingReaped;
    forall z | 0 <= z < |s'.procs| ensures FamilyOk(s', z) && NotLost(s', z) {
      assert FamilyOk(s, z) && NotLost(s, z);
    }
  }

  /** The step respects what other threads rely on. */
  predicate Orderly(s: State, s': State, c: nat, p: nat, i: int) {
    Local(s, s', c, p, i) && Stays(s, s', c, p) && Polite(s, s', c, p, i) && KeepsBuilding(s, s', p, i)
  }

  /** Slots p and i are in order after the step. */
  predicate InOrder(s: State, s': State, p: nat, i: int)
    requires p < |s.procs| == |s'.procs| && i < |s.procs|
  {
    && ProcOk(s', p) && PcOk(s', p)
    && (i >= 0 ==> ProcOk(s', i) && (s'.procs[i].pc == s.procs[i].pc || PcOk(s', i)))
  }

  /** CPUs, locks and threads after any orderly step. */
  lemma OrderlyStep(s: State, s': State, c: nat, p: nat, i: int)
    requires CpusInv(s) && LocksInv(s) && ThreadsInv(s)
    requires Orderly(s, s', c, p, i) && s.procs[p].on >= 0 && LockStep(s, s', c) && InOrder(s, s', p, i)
    ensures CpusInv(s') && LocksInv(s') && ThreadsInv(s')
  {
    hide CpusInv, LocksInv, ThreadsInv, ProcOk, PcOk, StepFrame, Stays, LockStep, Polite, KeepsBuilding;
    FrameCpus(s, s', c, p);
    FrameLocks(s, s', c, p);
    ThreadsFrame(s, s', c, p, i);
  }

  /** A step that changes only p and i, calmly, keeps the whole invariant. */
  lemma CalmStep(s: State, s': State, c: nat, p: nat, i: int)
    requires Inv(s) && Orderly(s, s', c, p, i) && s.procs[p].on >= 0 && LockStep(s, s', c) && InOrder(s, s', p, i)
    requires Calm(s, s', p) && (i >= 0 ==> Calm(s, s', i)) && WaiterOk(s, s')
    requires PidCalm(s, s', p) && (i >= 0 ==> PidCalm(s, s', i))
    ensures Inv(s')
  {
    hide CpusInv, LocksInv, ThreadsInv, FamilyInv, WakeupsInv, PidsInv, InOrder, LockStep, Calm, PidCalm, WaiterOk,
      StepFrame, Stays, Polite, KeepsBuilding;
    OrderlyStep(s, s', c, p, i);
    CalmFrame(s, s', c, p, i);
    PidsFrame(s, s', c, p, i);
  }

  /** What the invariant says of the acting thread and of slot i. */
  lemma Facts(s: State, c: nat, p: nat, i: int)
    requires Inv(s) && Acting(s, c, p)
    ensures ProcOk(s, p) && PcOk(s, p) && CpuOk(s, c) && FamilyOk(s, p) && s.procs[p].on == c
    ensures s.procs[p].state.RUNNING? || s.procs[p].state.ZOMBIE?
    ensures forall l: LockId {:trigger Holder(s, l)} :: Holder(s, l) == c <==> ThreadLocked(s.procs[p], p, l)
    ensures s.procs[p].intr.NoYield? ==> (Holder(s, WaitLock) == c <==> HasWait(s.procs[p].pc))
    ensures 0 <= i < |s.procs| ==> ProcOk(s, i) && FamilyOk(s, i) && NotLost(s, i) && CleanWhenUnused(s, i)
    ensures s.init < |s.procs|
  {
    assert CpuOk(s, c);
    assert ProcOk(s, p) && PcOk(s, p);
    assert FamilyOk(s, p);
    Holding(s, c, p);
    hide ProcOk, PcOk, CpuOk, FamilyOk, NotLost, CpusInv, LocksInv;
    assert s.procs[p].on == c && s.init < |s.procs| by {
      hide *;
      ActingOn(s, c, p);
    }
    OnState(s, p);
    assert Holder(s, WaitLock) == c <==> ThreadLocked(s.procs[p], p, WaitLock);
    if 0 <= i < |s.procs| {
      UnusedClean(s, i);
    }
  }

  predicate CleanWhenUnused(s: State, i: nat)
    requires i < |s.procs|
  {
    s.procs[i].state.UNUSED? ==> s.procs[i] == UNUSED_SLOT
  }

  lemma UnusedClean(s: State, i: nat)
    requires i < |s.procs| && ProcOk(s, i)
    ensures CleanWhenUnused(s, i)
  {
  }

  lemma ActingOn(s: State, c: nat, p: nat)
    requires CpusInv(s) && Acting(s, c, p)
    ensures s.procs[p].on == c && s.init < |s.procs|
  {
    assert CpuOk(s, c);
  }

  lemma OnState(s: State, p: nat)
    requires p < |s.procs| && ProcOk(s, p) && s.procs[p].on >= 0
    ensures s.procs[p].state.RUNNING? || s.procs[p].state.ZOMBIE?
  {
  }

  // -------------------------------------------------------------- gentle steps

  /** All that wakeup and kkill do to a process; kkill(0) would do more to an unused slot. */
  predicate Gentle(q: ProcSlot, q': ProcSlot) {
    && (q.state.UNUSED? ==> q' == q)
    && q'.(killed := q.killed, state := q.state, chan := q.chan) == q
    && (q'.state == q.state || (q.state.SLEEPING? && q'.state.RUNNABLE?))
    && (q'.chan == q.chan || (q'.chan.NoChan? && !q'.state.SLEEPING?))
  }

  /** The step moves thread p, treats slot i gently, and leaves everything else alone but locks. */
  predicate GentleOn(s: State, s': State, c: nat, p: nat, i: int) {
    && Acting(s, c, p) && i < |s.procs| == |s'.procs|
    && s'.cpus == s.cpus && s'.nextpid == s.nextpid && s'.init == s.init
    && (forall x | 0 <= x < |s.procs| && x != p && x != i :: s'.procs[x] == s.procs[x])
    && (i >= 0 && i != p ==> Gentle(s.procs[i], s'.procs[i]))
    && Gentle(s.procs[p], s'.procs[p].(pc := s.procs[p].pc, intr := s.procs[p].intr))
  }

  /** No one relies on a thread at pc to set up a slot, to reap a zombie or to wake init up. */
  predicate Unrelied(pc: Pc) {
    && !pc.MemAcq? && !pc.MemBody? && !pc.FailAcq? && !pc.FailBody? && !pc.Copied?
    && !pc.ParentAcq? && !pc.ParentBody? && !pc.RunAcq? && !pc.RunBody?
    && !pc.ReapAcq? && !pc.ReapBody?
    && !((pc.WakeAcq? || pc.WakeBody?) && pc.k.ToReparent?)
  }

  lemma PlainWaiter(s: State, s': State, c: nat, p: nat)
    requires CpusInv(s) && Acting(s, c, p) && StepFrame(s, s', c, p) && Unrelied(s.procs[p].pc)
    requires Holder(s', WaitLock) == Holder(s, WaitLock) || Holder(s, WaitLock) == c || Holder(s, WaitLock) == -1
    ensures WaiterOk(s, s')
  {
    if Holder(s, WaitLock) != c && Holder(s, WaitLock) != -1 {
      WaiterKept(s, s', c, p);
    }
  }

  lemma PlainBuilder(pc: Pc)
    requires Unrelied(pc)
    ensures forall x :: !Builds(pc, x)
  {
  }

  lemma GentleSlot(s: State, s': State, c: nat, p: nat, i: nat)
    requires GentleOn(s, s', c, p, i) && i != p && ProcOk(s, i)
    requires forall x | 0 <= x < |s.procs| && Builds(s.procs[p].pc, x) :: Builds(s'.procs[p].pc, x)
    ensures ProcOk(s', i) && Calm(s, s', i) && PidCalm(s, s', i) && Same(s, s', i)
  {
    hide NoLocks;
  }

  lemma GentleFrame(s: State, s': State, c: nat, p: nat, i: int)
    requires GentleOn(s, s', c, p, i)
    ensures Local(s, s', c, p, Other(p, i)) && Stays(s, s', c, p)
    ensures Calm(s, s', p) && Same(s, s', p) && PidCalm(s, s', p)
  {
  }

  lemma GentleOrder(s: State, s': State, c: nat, p: nat, i: int)
    requires GentleOn(s, s', c, p, i) && i != p && Local(s, s', c, p, i) && Stays(s, s', c, p) && Same(s, s', p)
    requires forall x | 0 <= x < |s.procs| && Builds(s.procs[p].pc, x) :: Builds(s'.procs[p].pc, x)
    requires i >= 0 ==> Same(s, s', i)
    ensures Orderly(s, s', c, p, i)
  {
  }

  /** A gentle step keeps the invariant when thread p itself ends up in order. */
  lemma GentleStep(s: State, s': State, c: nat, p: nat, i: int)
    requires Inv(s) && GentleOn(s, s', c, p, i) && LockStep(s, s', c) && ProcOk(s', p) && PcOk(s', p)
    requires forall x | 0 <= x < |s.procs| && Builds(s.procs[p].pc, x) :: Builds(s'.procs[p].pc, x)
    requires WaiterOk(s, s')
    ensures Inv(s')
  {
    var j := Other(p, i);
    Facts(s, c, p, j);
    hide *;
    GentleUnder(s, s', c, p, i);
    GentleFrame(s, s', c, p, i);
    if j >= 0 {
      GentleSlot(s, s', c, p, j);
    }
    GentleOrder(s, s', c, p, j);
    SlotsInOrder(s, s', c, p, i);
    CalmStep(s, s', c, p, j);
  }

  /** The same for the threads that no one relies on. */
  lemma PlainStep(s: State, s': State, c: nat, p: nat, i: int)
    requires Inv(s) && GentleOn(s, s', c, p, i) && LockStep(s, s', c) && ProcOk(s', p) && PcOk(s', p)
    requires Unrelied(s.procs[p].pc)
    ensures Inv(s')
  {
    GentleFrame(s, s', c, p, i);
    PlainBuilder(s.procs[p].pc);
    assert Holder(s', WaitLock) == Holder(s, WaitLock) || Holder(s, WaitLock) == c || Holder(s, WaitLock) == -1;
    hide ProcOk, PcOk, CpusInv, LocksInv, ThreadsInv, FamilyInv, WakeupsInv, PidsInv, GentleOn, LockStep, Unrelied,
      WaiterOk, StepFrame, Builds;
    PlainWaiter(s, s', c, p);
    GentleStep(s, s', c, p, i);
  }

  lemma GentleUnder(s: State, s': State, c: nat, p: nat, i: int)
    requires GentleOn(s, s', c, p, i)
    ensures GentleOn(s, s', c, p, Other(p, i))
    ensures |s'.procs| == |s.procs| && Acting(s, c, p) && p < |s.procs| && i < |s.procs|
  {
  }

  lemma SlotsInOrder(s: State, s': State, c: nat, p: nat, i: int)
    requires GentleOn(s, s', c, p, i) && ProcOk(s', p) && PcOk(s', p)
    requires i >= 0 && i != p ==> ProcOk(s', i)
    ensures InOrder(s, s', p, Other(p, i))
  {
    hide ProcOk, PcOk;
  }

  // ---------------------------------------------------------------- lock steps

  /** From pc to pc', thread p lets go of lock l0 and of no other. */
  ghost predicate LetsGo(pc: Pc, pc': Pc, p: nat, l0: LockId) {
    Locked(pc, p, l0) && forall l: LockId :: Locked(pc', p, l) <==> Locked(pc, p, l) && l != l0
  }

  ghost predicate SameLocked(pc: Pc, pc': Pc, p: nat) {
    forall l: LockId :: Locked(pc', p, l) <==> Locked(pc, p, l)
  }

  lemma AfterRelease(s: State, s': State, c: nat, p: nat, l0: LockId)
    requires LocksInv(s) && Acting(s, c, p) && s.procs[p].intr.NoYield?
    requires Acting(s', c, p) && s'.procs[p].intr.NoYield? && |s'.cpus| == |s.cpus|
    requires s'.locks == s.locks - {l0} && LetsGo(s.procs[p].pc, s'.procs[p].pc, p, l0)
    ensures LockStep(s, s', c)
  {
    Holding(s, c, p);
    hide Locked, LocksInv;
    assert Holder(s, l0) == c;
    forall l: LockId ensures Holder(s', l) == c <==> CpuLocked(s', c, l) {
      assert Holder(s, l) == c <==> ThreadLocked(s.procs[p], p, l);
    }
  }

  lemma Unreleased(s: State, s': State, c: nat, p: nat)
    requires LocksInv(s) && Acting(s, c, p) && s.procs[p].intr.NoYield?
    requires Acting(s', c, p) && s'.procs[p].intr.NoYield? && |s'.cpus| == |s.cpus|
    requires s'.locks == s.locks && SameLocked(s.procs[p].pc, s'.procs[p].pc, p)
    ensures LockStep(s, s', c)
  {
    Holding(s, c, p);
    hide Locked, LocksInv;
    forall l: LockId ensures Holder(s', l) == c <==> CpuLocked(s', c, l) {
      assert Holder(s, l) == c <==> ThreadLocked(s.procs[p], p, l);
    }
  }

  /** From pc to pc', thread p gets lock l0. */
  ghost predicate GetsHold(pc: Pc, pc': Pc, p: nat, l0: LockId) {
    forall l: LockId :: Locked(pc', p, l) <==> Locked(pc, p, l) || l == l0
  }

  lemma Acquired(s: State, s': State, c: nat, p: nat, l0: LockId)
    requires LocksInv(s) && Acting(s, c, p) && s.procs[p].intr.NoYield? && Holder(s, l0) == -1
    requires Acting(s', c, p) && s'.procs[p].intr.NoYield? && |s'.cpus| == |s.cpus|
    requires s'.locks == s.locks[l0 := c] && GetsHold(s.procs[p].pc, s'.procs[p].pc, p, l0)
    ensures LockStep(s, s', c)
  {
    Holding(s, c, p);
    hide Locked, LocksInv;
    forall l: LockId ensures Holder(s', l) == c <==> CpuLocked(s', c, l) {
      assert Holder(s, l) == c <==> ThreadLocked(s.procs[p], p, l);
    }
  }
}
